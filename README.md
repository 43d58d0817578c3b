# obsidian-inbox, modelled in Dafny

This project models the settings and bookkeeping core of obsidian-inbox. The plugin watches an "inbox" note or folder in an Obsidian vault and reminds the user when the inbox holds something to process. The model covers:

- The persisted settings. Settings version 1 hold a single inbox flattened into the top level. Version 2 hold a list of inboxes and a walkthrough status.
- `migrateSettings`, which upgrades whatever was loaded from disk to version 2, or to `undefined`.
- The walkthrough state machine. Its table has six states, and two of its cells fork on the tracking type.
- The older linear walkthrough stepper in the store: `next`, `back`, `complete`, `reset` and the derived step number.
- The vault event handlers (`changed`, `create`, `rename`, `delete`), which keep each inbox's tracked contents and file list up to date.
- The index-addressed setters of an inbox's tracking type, note and folder.
- The recursive listing of the files in a folder.

Files, one or more per source file:

| file | models |
|---|---|
| `wrappers.dfy` | `Option` |
| `json.dfy` | JavaScript values as loaded from disk: truthiness, `typeof`, `in`, property reads |
| `text.dfy` | `startsWith`, `endsWith`, `trim`, `split("/").at(-1)` |
| `collation.dfy` | the order `localeCompare` sorts by, and `sort` |
| `inbox.dfy` | `src/settings/Inbox.ts` |
| `settings_v1.dfy` | `src/settings/InboxPluginSettingsV1.ts` |
| `settings_v2.dfy` | `src/settings/InboxPluginSettingsV2.ts`, and the live settings object |
| `migrate_settings.dfy` | `src/settings/migrate-settings.ts` |
| `walkthrough_status.dfy` | `src/walkthrough/WalkthroughStatus.ts` |
| `walkthrough_machine.dfy` | `src/walkthrough/walkthrough-state-machine.ts` |
| `store.dfy` | `src/store.ts` |
| `register_events.dfy` | `src/register-events.ts` |
| `inbox_helpers.dfy` | `src/inbox-helpers.ts` |
| `tabstractfile_helpers.dfy` | `getAllFilesInFolderRecursive` in `src/obsidian/tabstractfile-helpers.ts` |

How the code's behaviour is represented:

- **Migration.** The loaded blob is a `Json` value whose objects are maps from key to value. `Migrated` is what a call returns: a value, or a thrown `TypeError`. The error is thrown when a note-tracked V1 object holds a truthy `inboxNotePath` that is not a string, because `endsWith` is then not a function. `InputAfter` is what the caller's own object holds after the call, since the `.md` suffix is appended in place. `MigrateSettingsInPlace` is the imperative form over a `RawSettings` reference, proved equal to both functions.
- **Migration order.** The code tests for V1 first and applies the V2 gate afterwards (`src/settings/migrate-settings.ts:19`, `:31`). The model follows the code: an object carrying both `inboxNotePath` and `inboxes` is upgraded as V1, and its old `inboxes` value is replaced.
- **Walkthrough status** is a string, as it is at run time.
  - The stepper walks the five-entry `WALKTHROUGH_STATUS_OPTIONS`.
  - The state machine names its six states `unstarted`, `setCompareFileOrFolder`, `setCompareType`, `setInboxPath`, `restartObsidian` and `completed`. Each is taken to be stored under its own name. The `WalkthroughStatuses` enum is not part of this model.
  - `transition` on a status that names none of those states reads a property of `undefined` and throws. `Transition` then returns `None`.
  - `transition` as written reads `state.trackingType`, which version 2 settings do not have. `Transition` takes the tracking type as a parameter instead; see "## Findings".
- **Store.** The store holds the live `Settings` object.
  - `publishes` counts the values handed to subscribers, through `set` or `update`.
  - `saveRequests` counts calls of `saveSettings`.
  - `src/store.ts` types the store's value as the plugin, while the event handlers and setters treat `get(store)` as the settings. The model has one store whose `settings` are the version 2 settings.
- **Vault.** Lookups become parameters:
  - the paths of the markdown files;
  - a function from a note's path to its contents;
  - the loaded file tree, as `AbstractFile` values.
- **Event handlers.** One loop, `UpdateMatching`, serves all four handlers. It runs the handler's update on every inbox its test selects, and publishes only when at least one inbox was selected. `Handle` adds the `hasPerformedCheck` guard.
- **Inbox file lists.** `setInboxFolder` stores the files' vault *paths* (`getAllFilesInFolderRecursive` returns `child.path`). `create` adds, and `delete` and `rename` remove, file *names* (`file.name`). The model keeps both exactly as written.

## Model

| member | source | states |
|---|---|---|
| SettingsV1.IsInboxPluginSettingsV1 | src/settings/InboxPluginSettingsV1.ts:58-62 | true exactly for objects with an `inboxNotePath` key: false for null, undefined, primitives, arrays and objects without the key; an `inboxes` key does not matter |
| SettingsV2.IsInboxPluginSettingsV2 | src/settings/InboxPluginSettingsV2.ts:20-24 | true exactly for non-null objects with an `inboxes` key, whatever its value |
| SettingsV2.InboxesToJson | src/settings/InboxPluginSettingsV2.ts:4-8 | the persisted list has one object per inbox, in order |
| SettingsV2.ToJsonIsV2 | src/settings/InboxPluginSettingsV2.ts:4-24 | every persisted V2 record passes the V2 shape test |
| SettingsV2.DefaultSettingsLiteral | src/settings/InboxPluginSettingsV2.ts:15-18 | `DEFAULT_SETTINGS` has no inboxes and status "unstarted", and passes the V2 shape test |
| Inboxes.TrackingTypeFromJson | src/settings/Inbox.ts:3-8 | a tracking type is read only from its own name |
| Inboxes.CompareTypeFromJson | src/settings/Inbox.ts:18-22 | `compareType` has exactly the two values `compareToBase` and `compareToLastTracked` |
| Inboxes.StringsToJson | src/settings/Inbox.ts:36-41 | the persisted file list has one entry per file name |
| Inboxes.StringsRoundTrip | src/settings/Inbox.ts:36-41 | reading back a persisted file list gives the same list |
| Inboxes.RoundTrip | src/settings/Inbox.ts:3-48 | reading back the persisted form of any inbox gives the same inbox |
| Inboxes.InboxJsonKeys | src/settings/Inbox.ts:3-48 | each field of an inbox is stored under its own key |
| Inboxes.DefaultInboxLiteral | src/settings/Inbox.ts:50-58 | `DEFAULT_INBOX` is note-tracked, with empty path, `compareToLastTracked`, empty contents, no files and a `null` duration |
| MigrateSettings.Migrated | src/settings/migrate-settings.ts:16-34 | definition of what `migrateSettings` returns (a value or a thrown `TypeError`); characterised by `V1Upgrade`, `V2PassesThrough`, `UnrecognisedIsUndefined`, `Idempotent` and `TypedV1Upgrade` |
| MigrateSettings.InputAfter | src/settings/migrate-settings.ts:19-27 | definition of the caller's object after the call; characterised by `OnlyNotePathChanges` and `NotePathFixup` |
| MigrateSettings.FixNotePath | src/settings/migrate-settings.ts:21-27 | definition of the `.md` fix-up, or None where the guard throws; characterised by `NotePathFixup` and `TypedFixNotePath` |
| MigrateSettings.MigrateV1ToV2 | src/settings/migrate-settings.ts:36-48 | definition of `migrateV1ToV2`; characterised by `V1Upgrade` and `TypedMigrateV1ToV2` |
| MigrateSettings.Gate | src/settings/migrate-settings.ts:31-34 | definition of the final V2 gate; characterised by `V2PassesThrough` and `UnrecognisedIsUndefined` |
| MigrateSettings.MigrateSettingsInPlace | src/settings/migrate-settings.ts:16-34 | returns `Migrated` of the input and leaves `InputAfter` of it in the caller's object |
| MigrateSettings.NormalizedNotePath | src/settings/migrate-settings.ts:21-27 | the path is kept exactly when the inbox is not note-tracked, the path is empty or it ends in ".md"; otherwise ".md" is appended |
| MigrateSettings.NotePathFixup | src/settings/migrate-settings.ts:21-27 | on a V1 object: ".md" is appended to a non-empty note path lacking it; a path with ".md", an empty path and any non-note path are unchanged; the call throws exactly for a truthy non-string note path |
| MigrateSettings.OnlyNotePathChanges | src/settings/migrate-settings.ts:26 | the only change made to the caller's object is the suffix on a string `inboxNotePath` |
| MigrateSettings.V1Upgrade | src/settings/migrate-settings.ts:36-47 | a V1 object becomes an object with exactly `inboxes` and `walkthroughStatus`; the status is the input's; there is one inbox, whose `path` is the fixed note path, which lacks `inboxNotePath` and `walkthroughStatus`, and which carries every other input key verbatim |
| MigrateSettings.V2PassesThrough | src/settings/migrate-settings.ts:31-33 | an object with `inboxes` and no `inboxNotePath` is returned unchanged and left unchanged |
| MigrateSettings.UnrecognisedIsUndefined | src/settings/migrate-settings.ts:16-34 | the result is `undefined` exactly for values that are not objects with `inboxNotePath` or `inboxes` |
| MigrateSettings.Idempotent | src/settings/migrate-settings.ts:19-33 | a defined result fed back in is returned unchanged and left untouched |
| MigrateSettings.Upgrade | src/settings/migrate-settings.ts:16-48 | definition of the typed upgrade, an independent reference for `migrateV1ToV2` after the `.md` fix-up: one inbox with the normalised path and the record's other fields, next to its status; tied to `Migrated` by `TypedV1Upgrade` |
| MigrateSettings.TypedV1Upgrade | src/settings/migrate-settings.ts:16-48 | any well-typed V1 record migrates to the persisted form of its typed upgrade |
| MigrateSettings.TypedV2PassesThrough | src/settings/migrate-settings.ts:31-33 | any persisted V2 record migrates to itself |
| MigrateSettings.MigratesNoteWithSuffix | src/settings/migrate-settings.test.ts:7-34 | the V1 record with note path "Mobile Inbox.md" migrates to the expected single-inbox V2 record |
| MigrateSettings.MigratesNoteWithoutSuffix | src/settings/migrate-settings.test.ts:36-63 | "Mobile Inbox" migrates to an inbox with path "Mobile Inbox.md" |
| MigrateSettings.MigratesFolder | src/settings/migrate-settings.test.ts:65-92 | a folder-tracked V1 record keeps its path and its file list `["file1", "file2"]` |
| MigrateSettings.LeavesV2Intact | src/settings/migrate-settings.test.ts:94-111 | V2 settings, `DEFAULT_SETTINGS` among them, come back unchanged; the defaults fail the V1 test |
| WalkthroughStatus.IndexOf | src/store.ts:11-13 | `indexOf` gives the first position holding the value, and -1 exactly when it is absent |
| WalkthroughStatus.OptionsShape | src/walkthrough/WalkthroughStatus.ts:1-7 | the list has five distinct entries, from "unstarted" to "completed" |
| WalkthroughStatus.IndexOfMember | src/walkthrough/WalkthroughStatus.ts:1-7 | each entry is found at its own position |
| WalkthroughStatus.IndexOfStatus | src/walkthrough/WalkthroughStatus.ts:9 | for every `WalkthroughStatus` value `s`, `indexOf(s)` is in 0..4 and names `s` again |
| Store.StepForward | src/store.ts:9-22 | `next` moves a listed status to the following entry, keeps "completed", and sends an unlisted status to "unstarted"; the result is always listed |
| Store.StepBack | src/store.ts:24-37 | `back` moves a listed status to the preceding entry and keeps "unstarted" and unlisted statuses |
| Store.BackUndoesForward | src/store.ts:9-37 | `back` after `next` is the identity on every listed status but the last |
| Store.ForwardUndoesBack | src/store.ts:9-37 | `next` after `back` is the identity on every listed status but the first |
| Store.ForwardAt | src/store.ts:9-22 | `next` moves from position i to i + 1, and stays on the last |
| Store.BackAt | src/store.ts:24-37 | `back` moves from position i to i - 1, and stays on the first |
| Store.ForwardFromListed | src/store.ts:9-22 | four presses of `next` reach "completed" from any listed status |
| Store.ForwardReachesCompleted | src/store.ts:9-22 | five presses of `next` reach "completed" from any status at all |
| Store.CurrentWalkthroughStep | src/store.ts:67-76 | the step is 0 exactly when there is no status or it is unlisted, and otherwise the 1-based position of the status |
| Store.Store.constructor | src/store.ts:5-6 | the store once `loadSettings` has set it (`src/main.ts:167`): it holds the given settings and has published and saved nothing. `writable()` itself starts out holding `undefined`, but no modelled operation runs before that first `set` |
| Store.Store.Set | src/store.ts:57 | `set` publishes once and requests no save |
| Store.Store.Next | src/store.ts:9-22 | the status becomes `StepForward` of the old one; the inboxes are unchanged; one publish and one save request |
| Store.Store.Back | src/store.ts:24-37 | the status becomes `StepBack` of the old one; the inboxes are unchanged; one publish and one save request |
| Store.Store.Complete | src/store.ts:39-45 | the status becomes "completed" whatever it was; the inboxes are unchanged; one publish and one save request |
| Store.Store.Reset | src/store.ts:47-53 | the status becomes "unstarted" whatever it was; the inboxes are unchanged; one publish and one save request |
| WalkthroughMachine.Table | src/walkthrough/walkthrough-state-machine.ts:25-59 | definition of `machine.states[s][a]`; characterised by `Fork`, `Unconditional` and `MissingEntries` |
| WalkthroughMachine.Transitioned | src/walkthrough/walkthrough-state-machine.ts:65-70 | definition of the status after an action for a given tracking type; characterised by `Direction`, `PreviousUndoesNext`, `RunToCompletion` and `TransitionedMatchesAsWritten` |
| WalkthroughMachine.StepNamed | src/walkthrough/walkthrough-state-machine.ts:65 | a status names a state of the table exactly when some state has that name |
| WalkthroughMachine.Transition | src/walkthrough/walkthrough-state-machine.ts:61-72 | same object returned, with only `walkthroughStatus` changed to the table's target; a status naming no state throws |
| WalkthroughMachine.Fork | src/walkthrough/walkthrough-state-machine.ts:32-48 | `next` from setCompareFileOrFolder goes to setCompareType for a note and setInboxPath for a folder; `previous` from setInboxPath mirrors it |
| WalkthroughMachine.Unconditional | src/walkthrough/walkthrough-state-machine.ts:28-57 | the other seven moves ignore the tracking type, each to its fixed target |
| WalkthroughMachine.MissingEntries | src/walkthrough/walkthrough-state-machine.ts:28-57 | exactly `previous` on unstarted and on setCompareFileOrFolder and `next` on completed have no entry, and those keep the status |
| WalkthroughMachine.PreviousUndoesNext | src/walkthrough/walkthrough-state-machine.ts:25-59 | with the tracking type fixed, `previous` undoes `next` exactly from setCompareFileOrFolder, setInboxPath and restartObsidian, and from setCompareType only for a note |
| WalkthroughMachine.Direction | src/walkthrough/walkthrough-state-machine.ts:25-59 | `next` moves strictly forward until completed; `previous` moves strictly back wherever it moves |
| WalkthroughMachine.CompletedStays | src/walkthrough/walkthrough-state-machine.ts:55-57 | any number of `next` presses keep completed |
| WalkthroughMachine.RunToCompletion | src/walkthrough/walkthrough-state-machine.ts:25-59 | from unstarted, `next` reaches completed after exactly 5 presses for a note and 4 for a folder, and stays there |
| WalkthroughMachine.NextTimesSplit | src/walkthrough/walkthrough-state-machine.ts:25-59 | m + n presses are m presses followed by n |
| WalkthroughMachine.StatusAsWritten | src/walkthrough/walkthrough-state-machine.ts:65-70 | definition of the status `transition` stores as written, with a branch cell indexed by the object's own `trackingType` property; characterised by `AsWrittenLosesStatusOnV2` and `TransitionedMatchesAsWritten` |
| WalkthroughMachine.AsWrittenLosesStatusOnV2 | src/walkthrough/walkthrough-state-machine.ts:68-69 | as written, both branch cells store `undefined` as the status of any V2 settings object |
| WalkthroughMachine.TransitionedMatchesAsWritten | src/walkthrough/walkthrough-state-machine.ts:65-71 | the transition with the tracking type passed in is what the code stores when the settings object carries that type, and off the two branch cells whatever it holds |
| Text.StartsWith | src/register-events.ts:33 | definition of `startsWith`: the string begins with the prefix; used by `RegisterEvents.Matches` |
| Text.EndsWith | src/settings/migrate-settings.ts:24 | definition of `endsWith`: the string ends with the suffix; used by `MigrateSettings.FixNotePath` and characterised for ".md" by `MigrateSettings.NormalizedNotePath` |
| Text.Trim | src/obsidian/tabstractfile-helpers.ts:13 | the result is a slice of the input, with only whitespace cut from either end and no whitespace at its ends |
| Text.TrimIdempotent | src/register-events.ts:18 | trimming a trimmed string leaves it as it is |
| Text.AfterLastSlash | src/register-events.ts:52 | the old name is the longest suffix of the old path without "/" |
| Collation.Leq | src/register-events.ts:38-40 | definition of the stand-in for `localeCompare(a, b) <= 0` (plain character order, see "## Left out"); characterised by `LeqTotal`, `LeqAntisymmetric`, `LeqTransitive` and `LeqReflexive` |
| Collation.LeqTotal | src/register-events.ts:38-40 | any two names are ordered one way or the other |
| Collation.LeqAntisymmetric | src/register-events.ts:38-40 | names ordered both ways are equal |
| Collation.LeqTransitive | src/register-events.ts:38-40 | the order is transitive |
| Collation.Sort | src/register-events.ts:38-40 | the sorted list is ordered and a permutation of the input |
| Collation.SortedUnique | src/register-events.ts:38-40 | two ordered lists with the same entries are equal |
| Collation.SortIsCanonical | src/register-events.ts:38-40 | two lists sort to the same list exactly when they hold the same entries, and sorting keeps an ordered list |
| RegisterEvents.Matches | src/register-events.ts:11-15 | definition of each handler's selection test (also :30-34, :53-57, :80-84); characterised by `NoMatchNoChange`, `RenameAsWrittenKeepsStaleName` and the requires of `CreatedFiles`, `DeletedFiles` and `RenamedFiles` |
| RegisterEvents.Apply | src/register-events.ts:17-19 | definition of each handler's update of a selected inbox (also :35-41, :58-69, :85-91); characterised by `KeepsIdentity`, `ChangedContents`, `CreatedFiles`, `DeletedFiles`, `RenameAsWrittenSelected` and `RenamedFiles` |
| RegisterEvents.Without | src/register-events.ts:87-89 | `filter(x => x !== y)` keeps every entry but `y`, with its multiplicity |
| RegisterEvents.After | src/register-events.ts:7-97 | definition of one inbox after a handler: updated when selected, otherwise itself; characterised by `KeepsIdentity`, `ChangedContents`, `CreatedFiles`, `DeletedFiles`, `RenamedFiles` and `RenameAsWrittenSelected` |
| RegisterEvents.Updated | src/register-events.ts:11-20 | definition of the inbox list after an update has been run on every selected inbox; the reference the loop of `UpdateMatching` is proved equal to |
| RegisterEvents.Handled | src/register-events.ts:7-97 | definition of the inbox list after the handler for an event; characterised by `HandledIsAfter`, `NoMatchNoChange`, `ChangedIdempotent`, and tied to `Handle` by its ensures |
| RegisterEvents.UpdateMatching | src/register-events.ts:11-20 | every selected inbox is updated, every other inbox is kept, the status is unchanged, and the settings are published once exactly when some inbox was selected |
| RegisterEvents.Handle | src/register-events.ts:10 | without `hasPerformedCheck` nothing changes and nothing is published |
| RegisterEvents.HandledIsAfter | src/register-events.ts:11-19 | the handled list keeps its length; each inbox is that inbox after the handler, and an unselected one is untouched |
| RegisterEvents.NoMatchNoChange | src/register-events.ts:16-20 | when no inbox is selected the list is unchanged |
| RegisterEvents.KeepsIdentity | src/register-events.ts:17-19 | a handler never changes an inbox's tracking type, path, compare type, base contents or duration; `changed` touches only the contents, the others only the file list |
| RegisterEvents.ChangedContents | src/register-events.ts:11-19 | a note inbox whose path is the changed file's gets the trimmed data; any other inbox is untouched |
| RegisterEvents.ChangedIdempotent | src/register-events.ts:8-23 | handling the same change twice gives the same list as handling it once |
| RegisterEvents.CreatedFiles | src/register-events.ts:30-41 | a prefix-matching folder inbox gains the new name once more, keeping duplicates, and ends sorted |
| RegisterEvents.DeletedFiles | src/register-events.ts:80-93 | a prefix-matching folder inbox loses every entry with the deleted name, keeps all others, and ends sorted |
| RegisterEvents.DeleteIdempotent | src/register-events.ts:76-98 | deleting a file twice gives the same inbox as deleting it once |
| RegisterEvents.CreateThenDelete | src/register-events.ts:26-98 | deleting a file right after creating it gives the same inbox as deleting it alone |
| RegisterEvents.RenamedFiles | src/register-events.ts:58-69 | renaming, with the old name selecting the inboxes: the old name is gone, the new name is listed, all other entries are kept, and the list is sorted |
| RegisterEvents.RenameAsWrittenKeepsStaleName | src/register-events.ts:53-57 | as written, renaming "Inbox/a.md" to "b.md" selects no inbox, and the folder inbox keeps ["a.md"] |
| RegisterEvents.OldNameExample | src/register-events.ts:52 | the old name of "Inbox/a.md" is "a.md" |
| RegisterEvents.RenameAsWrittenSelected | src/register-events.ts:53-69 | as written, an inbox that is selected loses every entry with the old name and gains the new one, sorted. Since it already listed the new name, that name appears at least twice when the names differ |
| RegisterEvents.RenameAsWrittenDuplicates | src/register-events.ts:53-69 | as written, renaming "Other/a.md" to "b.md" turns a folder inbox's ["b.md"] into ["b.md", "b.md"] |
| RegisterEvents.RenameReplacesName | src/register-events.ts:58-69 | selecting by the old name, the same rename selects the inbox and leaves ["b.md"] |
| InboxHelpers.WithTrackingType | src/inbox-helpers.ts:19-20 | definition of `setTrackingType`'s update; characterised by `TrackingTypeSet` |
| InboxHelpers.WithNote | src/inbox-helpers.ts:50-52 | definition of `setInboxNote`'s update; characterised by `NoteSet` |
| InboxHelpers.WithFolder | src/inbox-helpers.ts:82-86 | definition of `setInboxFolder`'s update; characterised by `FolderSet` |
| InboxHelpers.ResolveIndex | src/inbox-helpers.ts:14 | `at(index)` finds a position exactly when -len <= index < len; a non-negative index is the position, a negative one counts from the end |
| InboxHelpers.ResolveIndexPreimage | src/inbox-helpers.ts:14 | exactly two indices reach each position: the position and its offset from the end |
| InboxHelpers.FindFolder | src/inbox-helpers.ts:65-67 | the first loaded folder with the given path, or none exactly when no loaded folder has it |
| InboxHelpers.ReplaceInbox | src/inbox-helpers.ts:21 | the final write and `store.set(settings)` of each setter (also :53 and :87): only the inbox at the position changes, the status and save count are kept, and exactly one publish happens |
| InboxHelpers.SetTrackingType | src/inbox-helpers.ts:12-22 | an unknown index reports the error and changes and publishes nothing; otherwise only that inbox changes, to the new type with an empty path, and the settings are published |
| InboxHelpers.SetInboxNote | src/inbox-helpers.ts:24-54 | an unknown note is reported first and an unknown index second, with nothing changed or published; otherwise only that inbox changes, to the note's path and its trimmed contents, and the settings are published |
| InboxHelpers.SetInboxFolder | src/inbox-helpers.ts:56-88 | an unknown folder is reported first and an unknown index second, with nothing changed or published; otherwise only that inbox changes, to the folder's path and its sorted file listing, and the settings are published |
| InboxHelpers.TrackingTypeSet | src/inbox-helpers.ts:19-20 | the inbox gets the new type and an empty path, and nothing else changes |
| InboxHelpers.NoteSet | src/inbox-helpers.ts:50-52 | the inbox gets the note's path and trimmed contents, and nothing else changes |
| InboxHelpers.FolderSet | src/inbox-helpers.ts:82-86 | the new file list is sorted, has one entry per file below the folder and holds exactly those files' paths; the old list is gone, and nothing else changes |
| FileTree.AllFilesInFolderRecursive | src/obsidian/tabstractfile-helpers.ts:3-10 | definition of `getAllFilesInFolderRecursive`; characterised by `ListingLength`, `ListedPathsAreFiles` and `EveryFileListed` |
| FileTree.FlatMapChildren | src/obsidian/tabstractfile-helpers.ts:4-9 | definition of the `flatMap` over the children; characterised by `FlatMapAppend` |
| FileTree.Contribution | src/obsidian/tabstractfile-helpers.ts:5-8 | definition of one child's part of the listing: a folder's own listing, or a file's path |
| FileTree.FlatMapAppend | src/obsidian/tabstractfile-helpers.ts:3-10 | the listing of a list of children is the concatenation, in child order, of their listings |
| FileTree.ListingLength | src/obsidian/tabstractfile-helpers.ts:3-10 | the listing has one entry per file below the folder, and an empty folder lists nothing |
| FileTree.ListedPathsAreFiles | src/obsidian/tabstractfile-helpers.ts:5-8 | every listed path is the path of a file below the folder, so no folder path is listed |
| FileTree.EveryFileListed | src/obsidian/tabstractfile-helpers.ts:3-10 | every file below the folder has its path listed |

## Left out

- `src/main.ts`: plugin lifecycle, loading and saving data, and the startup check that sets `hasPerformedCheck`. This includes its older single-inbox event handlers and `notifyIfInboxNeedsProcessing`, with its async vault reads.
- The baseline selection by `compareType` and the meaning of `noticeDurationSeconds` (0 is infinite, `null` is the host default). Both are used only by `src/main.ts`. The model carries the fields and states their meaning in comments only.
- Settings-tab and walkthrough views, notices, commands and the Svelte store machinery (subscription, `derived`). Only the values delivered to subscribers are counted, as `publishes`.
- `readFile`, `vault.read` and `getMarkdownFiles`: they become the `read` function and the `markdownPaths` parameter. `getFolders` becomes the `loaded` file list.
- The `instanceof TFile` test in `setInboxNote`: markdown files from the vault are always files, so only the path is checked.
- `src/settings/TrackingTypes.ts` and the `WalkthroughStatuses` enum are not part of this model. Their values are taken to be `"note"`/`"folder"` and the state names themselves.
- Store.Store: the store's value is typed as the plugin (`src/store.ts:6`), and `next`, `back`, `complete` and `reset` read and write `plugin.settings.walkthroughStatus` (`:12`, `:27`, `:41`, `:49`). But `src/main.ts:167`, `:268`, `:304` and `:353` call `store.set(settings)` with the version 2 settings, and the event handlers and setters read `get(store)` as the settings. At run time `plugin.settings` is then `undefined`: the four stepper operations as written throw a `TypeError` (and `src/main.ts:350` calls `next`), and `currentWalkthroughStep` (`src/store.ts:67-76`) is always 0. The model's store holds the settings directly, and the contracts of `Store.Store.Next`, `Back`, `Complete`, `Reset` and `Store.CurrentWalkthroughStep` describe the behaviour only for a store that holds the plugin, as its type declares.
- InboxHelpers.SetInboxNote: `read` is a total function, but `vault.read` can reject, for example when the note has been deleted since it was found. As written, `path` is set (`src/inbox-helpers.ts:50`) before the read is awaited (`:51`). A rejected read therefore leaves the live inbox with the new path and its old `inboxNoteContents`, shows no error notice, and never reaches `store.set` (`:53`). The model does not capture this failure.
- Async interleaving: the handlers and setters run as if each ran to completion alone.
- RegisterEvents.UpdateMatching: inbox objects are values. Two list positions holding the same object, which would make one update visible twice, are not modelled.
- InboxHelpers.SetInboxFolder: the previous list is sorted in place before being replaced (`src/inbox-helpers.ts:85`). This is observable only through an alias to the old array and is not modelled.
- Collation.Leq: `localeCompare` is locale-aware ICU collation, a total preorder: distinct strings can compare equal (canonically equivalent forms, ignorable characters), and the stable `sort` then keeps them in input order. The model sorts by plain character order, which is antisymmetric, so in the model a sorted list depends only on the multiset of its entries (`Collation.SortIsCanonical`); in the host it does not.
- Text.Trim: only the six ASCII whitespace characters are trimmed, not the further Unicode spaces and line terminators that `trim` also removes.
- WalkthroughMachine.Transition: a status equal to an `Object.prototype` property name, such as "toString", finds that property instead of throwing and leaves the status unchanged. The model treats it as naming no state.
- InboxHelpers.ResolveIndex: numbers are integers. `at` on a fractional or non-finite index, which truncates toward zero, is not modelled. Durations are integers as well, so floating-point values are not modelled.
- SettingsV1.IsInboxPluginSettingsV1: the documented convention that a folder path carries no ".md" is documentation only. No code enforces it, so no contract states it. The note-path part is `NormalizedNotePath`.

## Findings

| source | as written | input that shows it | evidently intended | confidence | as-written member | corrected member |
|---|---|---|---|---|---|---|
| src/register-events.ts:53-57 | `rename` selects folder inboxes whose list already includes `file.name`, the file's new name | a folder inbox "Inbox" tracking ["a.md"]; "Inbox/a.md" is renamed to "b.md": no inbox is selected and the list keeps the stale "a.md". An inbox that does get selected already lists the new name and gets it twice: ["b.md"] after renaming "Other/a.md" to "b.md" becomes ["b.md", "b.md"] | select the inboxes whose list includes `oldName`, so the old name is replaced by the new one | medium, not executed | RegisterEvents.RenameAsWrittenKeepsStaleName, RegisterEvents.RenameAsWrittenSelected | RegisterEvents.RenamedFiles |
| src/walkthrough/walkthrough-state-machine.ts:68-69 | a branch cell is indexed with `state.trackingType`, a property the version 2 settings do not have | any version 2 settings at setCompareFileOrFolder with `next`, or at setInboxPath with `previous`: the status becomes `undefined` | index the cell with the tracking type of the inbox being set up | low, not executed | WalkthroughMachine.AsWrittenLosesStatusOnV2 | WalkthroughMachine.Fork |
