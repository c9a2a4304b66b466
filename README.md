# Batchbrake, modelled in Dafny

Batchbrake is a desktop front end that queues video files and converts them with HandBrakeCLI. FFmpeg supplies the facts about each file. This project models the logic behind that front end and proves properties of it:

- **Batchbrake's own data.**
  - `Video`: a queued video item, its clips and its conversion status. It covers the rule that renames the output path when the output format changes.
  - `Queue`: the main window's video queue. It covers adding a file, which skips duplicates and expands the output-path template, and an index that always follows the position. It also covers removing items, clearing completed items, Stop, Pause and the status counts.
  - `Session`: the session manager. It saves a snapshot of the queue, loads it and clears it. Restoring skips entries that were in progress and entries whose input file no longer exists.
- **The tool wrappers.**
  - `HandBrakeCli` models the HandBrakeCLI wrapper:
    - parsing the preset list into an insertion-ordered table, with categories closed by `/` and presets indented;
    - merging the preset files the user added;
    - building the command line: imports, input and output, clipping, encoder flags and extra arguments;
    - turning the exit code into a result.
  - `FFmpegWrapper` models the FFmpeg wrapper, which runs `ffmpeg -i` on the file and reads its standard error: the exit-code check, the `Duration:` match and the human-readable file size.
- **Settings objects and their dialogs.**
  - `HandBrakeOptions` and `FFmpegOptions` are the two settings objects. Each field has a setter that raises its property-changed notification only on a real change, and each object has a clone.
  - `HandBrakeSettingsEditor`, `PreferencesEditor` and `SegmentEditor` are the three dialogs:
    - copy in, edit, then save or cancel;
    - restore the defaults;
    - manage the preset-file list and the extension list;
    - edit the segment text, parsed as `HH:MM:SS`, `MM:SS` or seconds, into clips sorted by start.
  - `AppPreferences` holds the preferences record and its defaults.
- **Shared modules.**
  - `Text` holds the .NET string operations the code depends on: `Trim`, `Split`, `Join`, `Replace`, `int.Parse` and decimal rendering.
  - `Paths` holds the `Path` functions, with `\` as the separator.
  - `Common` holds `Option`, `Result` and the list operations `List.Remove` and LINQ `Distinct`.

A method that changes an object is specified by the object's new fields, written as functions of the old ones. The source's promises are then proved about those functions. A pure computation is a function, and lemmas relate it to a partner: an inverse, a reference definition or an invariant.

## Model

| member | source | states |
|---|---|---|
| Video.CodeRoundTrip | Batchbrake/ViewModels/VideoViewModel.cs:271-279 | The status codes are 0 to 5 in declaration order, one per member: `FromCode(Code(s))` is `s`, and every code that maps to a member is that member's code |
| Video.FromCode | Batchbrake/ViewModels/VideoViewModel.cs:271-279 | A code maps to a status exactly when it lies in 0..5 |
| Video.Clip.constructor | Batchbrake/ViewModels/VideoViewModel.cs:239-265 | A clip holds the start and end it was made with |
| Video.VideoItem.constructor | Batchbrake/ViewModels/VideoViewModel.cs:16-211 | A new item has index 0, status NotStarted, progress 0, output format "mp4", empty presets, no clips and no paths |
| Video.VideoItem.Initialized | Batchbrake/Services/SessionManager.cs:105-116 | The object initializer of a restored item: the given fields set, index 0, progress 0, format "mp4", the rest at their defaults |
| Video.CanEditExactly | Batchbrake/ViewModels/VideoViewModel.cs:144 | `CanEditVideo` holds exactly for the five statuses other than InProgress |
| Video.VideoItem.CanEditVideo | Batchbrake/ViewModels/VideoViewModel.cs:144 | Not InProgress; CanEditExactly states it for every status |
| Video.VideoItem.HasSegments | Batchbrake/ViewModels/VideoViewModel.cs:125 | A clip list that is present and non-empty |
| Video.VideoItem.SetOutputFormat | Batchbrake/ViewModels/VideoViewModel.cs:215-222 | The setter stores the format; it reports a throw exactly for the root-only path `\`, and the output path becomes `UpdatedOutputPath` of the old path and the new format, which leaves the path as it was when the update throws |
| Video.UpdatedOutputPath | Batchbrake/ViewModels/VideoViewModel.cs:225-233 | A null or empty path or format leaves the path unchanged, and so does the root-only path `\`, for which `Path.Combine` throws; the result is a path exactly when the old value was one |
| Video.UpdatedOutputPathParts | Batchbrake/ViewModels/VideoViewModel.cs:229-231 | For a non-empty path other than the root alone and a format without dot or separator, the new path keeps the directory and the stem, and its extension is "." + format |
| Video.UpdatedOutputPathIdempotent | Batchbrake/ViewModels/VideoViewModel.cs:229-231 | Setting the same plain format a second time leaves the path as the first setting made it |
| Video.DottedFormatNotIdempotent | Batchbrake/ViewModels/VideoViewModel.cs:229-231 | A format with a dot in it ("x.y") is not idempotent: the stem keeps growing by ".x" on each repeated setting |
| Video.RenamePlain | Batchbrake/ViewModels/VideoViewModel.cs:229-231 | A bare file name `stem.ext` becomes `stem.format` |
| Video.StemOfPlainName | Batchbrake/ViewModels/VideoViewModel.cs:229-230 | A name without separators has no directory and its stem is the text before the last dot |
| Queue.MainWindow.constructor | Batchbrake/ViewModels/MainWindowViewModel.cs:52-139 | The parameterless constructor: empty queue, parallel instances 1, template "$(Folder)\\$(FileName)_conv.$(Ext)", status "Ready", empty log, format "mp4", and the collection-changed handler attached |
| Queue.MainWindow.WithFilePicker | Batchbrake/ViewModels/MainWindowViewModel.cs:141-146 | The file-picker constructor: the same defaults, and no handler attached |
| Queue.MainWindow.QueueCount | Batchbrake/ViewModels/MainWindowViewModel.cs:128 | Every item has exactly one status, so `QueueCount` is the sum of the six status counts |
| Queue.MainWindow.CanStartConversion | Batchbrake/ViewModels/MainWindowViewModel.cs:134 | A conversion can start exactly when none is running and `QueueCount` is positive |
| Queue.MainWindow.ProcessingCount | Batchbrake/ViewModels/MainWindowViewModel.cs:130 | `ProcessingCount` is zero exactly when no item is InProgress |
| Queue.MainWindow.CompletedCount | Batchbrake/ViewModels/MainWindowViewModel.cs:132 | `CompletedCount` is zero exactly when no item is Completed |
| Queue.CountExtremes | Batchbrake/ViewModels/MainWindowViewModel.cs:128-132 | A status count is zero exactly when the status is absent, and equals the length exactly when every item has it |
| Queue.Count | Batchbrake/ViewModels/MainWindowViewModel.cs:128-132 | A status count is at most the queue length; CountExtremes and CountsPartition state the rest |
| Queue.CountsPartition | Batchbrake/ViewModels/MainWindowViewModel.cs:128-132 | The six status counts add up to the queue length |
| Queue.MainWindow.Reindex | Batchbrake/ViewModels/MainWindowViewModel.cs:35-38 | The index loop: every item's Index becomes its position; the queue itself is unchanged |
| Queue.MainWindow.SetVideoQueue | Batchbrake/ViewModels/MainWindowViewModel.cs:30-39 | The setter installs the new collection, which has no handler attached, and numbers its items 0..n-1 |
| Queue.HasInputExactly | Batchbrake/ViewModels/MainWindowViewModel.cs:168-171 | The duplicate test holds exactly when some queued item has that input path |
| Queue.HasInput | Batchbrake/ViewModels/MainWindowViewModel.cs:168-171 | The duplicate test over the queue, which HasInputExactly states is the existence of an item with that input path |
| Queue.MainWindow.AddNewFile | Batchbrake/ViewModels/MainWindowViewModel.cs:166-196 | A file already queued changes nothing; a failed lookup adds nothing; otherwise one new item is appended at index old length with status NotStarted, progress 0, the chosen preset, the presets list and the expanded template as its output path, and the old items keep their order; `QueueCount` grows by one exactly when the file was added, and then a conversion can start unless one is running |
| Queue.ChosenPreset | Batchbrake/ViewModels/MainWindowViewModel.cs:190 | `DefaultPreset ?? Presets.FirstOrDefault()`: the default preset when set, otherwise the first preset, otherwise none |
| Queue.NewVideo | Batchbrake/ViewModels/MainWindowViewModel.cs:185-193 | The new item has exactly the initializer's fields and the item defaults for the rest |
| Queue.MainWindow.Enqueue | Batchbrake/ViewModels/MainWindowViewModel.cs:183-195 | The new item is appended with index old length, the handler (when attached) renumbers the queue, the queue count grows by one and starting is possible exactly when not converting |
| Queue.MainWindow.Add | Batchbrake/ViewModels/MainWindowViewModel.cs:195 | `VideoQueue.Add`: the item is appended; with the handler attached every index becomes its position, without it no item changes |
| Queue.BareExtension | Batchbrake/ViewModels/MainWindowViewModel.cs:180 | The extension of the file without its leading dot, or "" when it has none |
| Queue.DefaultTemplateExpansion | Batchbrake/ViewModels/MainWindowViewModel.cs:72 | For a file without '$', the default template expands to directory + separator + stem + "_conv." + bare extension |
| Queue.ExpandInTurn | Batchbrake/ViewModels/MainWindowViewModel.cs:177-180 | In a template where each placeholder occurs once, the three replacements in turn put the directory, the stem and the extension in the placeholders' places |
| Queue.ExpandTemplate | Batchbrake/ViewModels/MainWindowViewModel.cs:177-180 | A template without '$' comes back unchanged; ExpandInTurn states where directory, stem and extension go otherwise |
| Queue.PlainTemplate | Batchbrake/ViewModels/MainWindowViewModel.cs:177-180 | Without '$' in the template, none of the three replacements changes it |
| Queue.PlaceholdersApart | Batchbrake/ViewModels/MainWindowViewModel.cs:177-180 | The three placeholders start with '$' and none is a prefix of another, so one replacement cannot hit another placeholder |
| Queue.MainWindow.Remove | Batchbrake/ViewModels/MainWindowViewModel.cs:202 | `VideoQueue.Remove`: the first occurrence of the item is removed, the rest keep their order, and the handler renumbers when attached |
| Queue.MainWindow.RemoveVideo | Batchbrake/ViewModels/MainWindowViewModel.cs:198-210 | The item is removed if queued and the remaining items are numbered 0..n-1 in their old order; `QueueCount` drops by one exactly when it was queued |
| Queue.MainWindow.ClearCompleted | Batchbrake/ViewModels/MainWindowViewModel.cs:263-271 | The new queue is exactly the items that are not Completed, in order; renumbering happens only through the handler; the log grows by one "Cleared n completed videos" line; `QueueCount` drops by the old `CompletedCount`, and a conversion can start afterwards exactly when none is running and some item was not Completed |
| Queue.MainWindow.RemoveCompleted | Batchbrake/ViewModels/MainWindowViewModel.cs:265-269 | Returns the old `CompletedCount` and leaves exactly the items that are not Completed, in order, the queue shrinking by that count; renumbering happens only through the handler and only when something was removed |
| Queue.MainWindow.RemoveAll | Batchbrake/ViewModels/MainWindowViewModel.cs:266-269 | Removing each listed item in turn leaves the queue without any of them, in order |
| Queue.ClearedIsRejected | Batchbrake/ViewModels/MainWindowViewModel.cs:265-269 | Removing the set of Completed items leaves exactly the items that are not Completed |
| Queue.WithoutIsRejected | Batchbrake/ViewModels/MainWindowViewModel.cs:265-269 | Removing a set that is exactly the items of one status is filtering that status out |
| Queue.SelectedMembers | Batchbrake/ViewModels/MainWindowViewModel.cs:265 | A queued item is selected exactly when it has the status |
| Queue.Selected | Batchbrake/ViewModels/MainWindowViewModel.cs:265 | Every selected item has the status; SelectedMembers gives both directions |
| Queue.RejectedStatuses | Batchbrake/ViewModels/MainWindowViewModel.cs:263-271 | Filtering the items filters their statuses; the number selected is the status count |
| Queue.DropCounts | Batchbrake/ViewModels/MainWindowViewModel.cs:263-271 | Dropping a status removes exactly its entries and keeps every other status count |
| Queue.MainWindow.Stop | Batchbrake/ViewModels/MainWindowViewModel.cs:248-260 | Not converting, status "Conversion stopped", one log line appended; every InProgress item becomes Cancelled with progress 0 and every other item is unchanged; `ProcessingCount` becomes 0, and a conversion can start exactly when the queue is non-empty |
| Queue.MainWindow.CancelRunning | Batchbrake/ViewModels/MainWindowViewModel.cs:255-259 | Every InProgress item becomes Cancelled with progress 0 and every other item keeps its status and progress; the statuses become `Stopped` of the old ones |
| Queue.Stopped | Batchbrake/ViewModels/MainWindowViewModel.cs:255-259 | The statuses after Stop, position by position |
| Queue.StoppedCounts | Batchbrake/ViewModels/MainWindowViewModel.cs:255-259 | After Stop no item is InProgress, the Cancelled count grew by the old InProgress count, and every other count is unchanged |
| Queue.MainWindow.Pause | Batchbrake/ViewModels/MainWindowViewModel.cs:241-245 | Status "Conversion paused" and one log line appended; no item changes |
| Session.Snapshot | Batchbrake/Services/SessionManager.cs:132-162 | The snapshot copies the five settings and the time, and its entries are `Entries` of the queue |
| Session.Entries | Batchbrake/Services/SessionManager.cs:144-159 | No saved entry is InProgress |
| Session.EntriesOfRejected | Batchbrake/Services/SessionManager.cs:144-159 | The saved entries are the items that are not InProgress, in queue order, each copied field by field |
| Session.Load | Batchbrake/Services/SessionManager.cs:63-81 | `LoadSessionAsync` returns a session exactly when the file holds one, and then that session |
| Session.Save | Batchbrake/Services/SessionManager.cs:44-57 | A successful write stores the snapshot; a failed one leaves the file as it was and throws nothing |
| Session.Clear | Batchbrake/Services/SessionManager.cs:167-180 | A missing file or a successful delete leaves no file; a failed delete leaves the file unchanged |
| Session.LoadAfterSave | Batchbrake/Services/SessionManager.cs:44-81 | After a successful save, load returns what was saved |
| Session.LoadAfterClear | Batchbrake/Services/SessionManager.cs:63-81 | After a successful clear, load returns no session |
| Session.ApplySession | Batchbrake/Services/SessionManager.cs:88-127 | A null session changes nothing; otherwise the five settings are written back and one new item per restorable entry is appended in order to the queue, which is not cleared |
| Session.RestoreQueue | Batchbrake/Services/SessionManager.cs:100-126 | The loop appends exactly one new item per entry that is not InProgress and whose input file exists, in snapshot order |
| Session.RestoreEntry | Batchbrake/Services/SessionManager.cs:100-125 | One iteration, on entry k: a restorable entry appends one new item built from it, any other entry changes nothing, and the restored entries become those of the first k + 1 |
| Session.AppendRestored | Batchbrake/Services/SessionManager.cs:105-124 | One restorable entry: a new item built from it is appended |
| Session.RestoreItem | Batchbrake/Services/SessionManager.cs:105-122 | A restored item carries the saved fields, index 0 and progress 0, and clips only when the saved list is non-empty |
| Session.RestoredEntries | Batchbrake/Services/SessionManager.cs:100-103 | Every restored entry is not InProgress and has an existing input file |
| Session.RestoredEntriesAll | Batchbrake/Services/SessionManager.cs:100-103 | When every entry is restorable, none is dropped |
| Session.SnapshotRestoredInFull | Batchbrake/Services/SessionManager.cs:100-159 | A snapshot whose every input path exists is restored in full |
| Session.SnapshotRoundTrip | Batchbrake/Services/SessionManager.cs:132-162 | Applying the snapshot of a queue to an empty queue, every path existing, gives its non-InProgress items in order with the same paths, preset, status, info, error and times; clips come back only when there were some |
| Session.EntriesInputsExist | Batchbrake/Services/SessionManager.cs:149 | When every queued item's input file exists, so does every saved entry's |
| HandBrakeCli.ParsePresetOutput | Batchbrake/Utilities/HandbrakeCLIWrapper.cs:342-368 | The loop computes `ParsePresets` of the output |
| HandBrakeCli.ParsePresetsSound | Batchbrake/Utilities/HandbrakeCLIWrapper.cs:342-368 | The parsed table has distinct category names, none ending in "/", each named by a header line, and every preset is the trimmed text of a preset line read under its category |
| HandBrakeCli.ParsePresets | Batchbrake/Utilities/HandbrakeCLIWrapper.cs:342-368 | The table the parse loop builds from the output lines has distinct category names; ParsePresetsSound states where each name and preset comes from |
| HandBrakeCli.ParseLinesFromLines | Batchbrake/Utilities/HandbrakeCLIWrapper.cs:349-365 | After any lines, the categories are distinct, named by header lines, and their presets come from preset lines |
| HandBrakeCli.ParseLines | Batchbrake/Utilities/HandbrakeCLIWrapper.cs:349-365 | The current category, when there is one, is a key of the table |
| HandBrakeCli.HeaderName | Batchbrake/Utilities/HandbrakeCLIWrapper.cs:356 | A category name never ends with "/" |
| HandBrakeCli.PresetLineText | Batchbrake/Utilities/HandbrakeCLIWrapper.cs:360-363 | A recorded preset is trimmed and starts with neither "[" nor "HandBrake" |
| HandBrakeCli.BlankPresetLine | Batchbrake/Utilities/HandbrakeCLIWrapper.cs:360-363 | A line of three spaces under a category records the empty name |
| HandBrakeCli.RootHeader | Batchbrake/Utilities/HandbrakeCLIWrapper.cs:354-360 | The header "/" opens the empty category, under which nothing is recorded |
| HandBrakeCli.DetailLine | Batchbrake/Utilities/HandbrakeCLIWrapper.cs:360 | Lines with five leading spaces are never recorded |
| HandBrakeCli.RepeatedHeader | Batchbrake/Utilities/HandbrakeCLIWrapper.cs:354-358 | A repeated header empties that category's list and keeps its position |
| HandBrakeCli.Lookup | Batchbrake/Utilities/HandbrakeCLIWrapper.cs:357-363 | A key is found exactly when it is one of the table's names |
| HandBrakeCli.LookupStore | Batchbrake/Utilities/HandbrakeCLIWrapper.cs:357 | A stored value is read back and no other key changes |
| HandBrakeCli.LookupAddTo | Batchbrake/Utilities/HandbrakeCLIWrapper.cs:363 | Adding to a list appends to that list only |
| HandBrakeCli.Store | Batchbrake/Utilities/HandbrakeCLIWrapper.cs:357 | A new key is added at the end; an existing key keeps its position |
| HandBrakeCli.StoreNoDup | Batchbrake/Utilities/HandbrakeCLIWrapper.cs:357 | Keys stay distinct under `Store` |
| HandBrakeCli.MergeInto | Batchbrake/Utilities/HandbrakeCLIWrapper.cs:158-171 | The inner merge loop computes `MergeCategory`: the category is created if absent and gets each missing preset appended |
| HandBrakeCli.Merge | Batchbrake/Utilities/HandbrakeCLIWrapper.cs:193-207 | The outer merge loop computes `MergeTables`, every incoming category in turn |
| HandBrakeCli.AddMissingSpec | Batchbrake/Utilities/HandbrakeCLIWrapper.cs:164-171 | The old list stays a prefix, the result holds exactly the elements of both, and no duplicate is added |
| HandBrakeCli.AddMissingPresent | Batchbrake/Utilities/HandbrakeCLIWrapper.cs:164-171 | Nothing is added when every incoming preset is already present |
| HandBrakeCli.MergeCategoryIdempotent | Batchbrake/Utilities/HandbrakeCLIWrapper.cs:158-171 | Merging the same presets into a category twice changes nothing more |
| HandBrakeCli.MergeTablesOthers | Batchbrake/Utilities/HandbrakeCLIWrapper.cs:193-207 | Categories not incoming keep their lists |
| HandBrakeCli.MergeTablesNames | Batchbrake/Utilities/HandbrakeCLIWrapper.cs:193-207 | Old categories keep their order and new ones come after them |
| HandBrakeCli.MergeTables | Batchbrake/Utilities/HandbrakeCLIWrapper.cs:193-207 | Every incoming category is merged in turn, and the old category names stay a prefix of the merged ones |
| HandBrakeCli.MergeTablesPrefix | Batchbrake/Utilities/HandbrakeCLIWrapper.cs:200-206 | Every list only grows at its end |
| HandBrakeCli.MergeTablesMembers | Batchbrake/Utilities/HandbrakeCLIWrapper.cs:193-207 | A merged category holds exactly its old presets and those of the incoming categories with its name |
| HandBrakeCli.MergeTablesDistinct | Batchbrake/Utilities/HandbrakeCLIWrapper.cs:193-207 | Merging keeps names and each category's presets duplicate-free |
| HandBrakeCli.ExistingFiles | Batchbrake/Utilities/HandbrakeCLIWrapper.cs:404-407 | At most the configured files are kept |
| HandBrakeCli.ExistingFilesMembers | Batchbrake/Utilities/HandbrakeCLIWrapper.cs:406 | A file is kept exactly when it is configured, not blank and exists |
| HandBrakeCli.ExistingFilesNoDup | Batchbrake/Utilities/HandbrakeCLIWrapper.cs:406 | Filtering keeps a duplicate-free list duplicate-free |
| HandBrakeCli.ValidPresetFilesSpec | Batchbrake/Utilities/HandbrakeCLIWrapper.cs:401-416 | The valid files are the usable configured files in order, followed by the legacy file exactly when it is not blank, exists and is not already listed |
| HandBrakeCli.ImportFileArgumentsAppend | Batchbrake/Utilities/HandbrakeCLIWrapper.cs:421-424 | The import options of two lists are those of each, one after the other |
| HandBrakeCli.ImportFileArgumentsAt | Batchbrake/Utilities/HandbrakeCLIWrapper.cs:421-424 | Each file's `--preset-import-file "f" ` option stands at its place among the others |
| HandBrakeCli.ImportArgumentsGui | Batchbrake/Utilities/HandbrakeCLIWrapper.cs:418-430 | Whatever follows the import options, the text starts with `--preset-import-gui ` exactly when there is no valid file, and otherwise with the first file's import option |
| HandBrakeCli.BuildArgumentsImports | Batchbrake/Utilities/HandbrakeCLIWrapper.cs:396-432 | The command line starts with `--preset-import-gui ` exactly when no preset file is usable, and otherwise with the first usable file's `--preset-import-file` option |
| HandBrakeCli.BuildArguments | Batchbrake/Utilities/HandbrakeCLIWrapper.cs:396-432 | The command line, in the source's order of appends: the import options, `-i` and `-o` with the quoted paths, the preset, the options and the settings' extras; BuildArgumentsImports, BuildArgumentsPlain and BuildArgumentsEnding state how it opens and ends |
| HandBrakeCli.BuildArgumentsPlain | Batchbrake/Utilities/HandbrakeCLIWrapper.cs:418-450 | With no preset, no options and blank settings extras, the command line is exactly the import options followed by ` -i "in" -o "out"` |
| HandBrakeCli.BuildArgumentsEnding | Batchbrake/Utilities/HandbrakeCLIWrapper.cs:434-450 | The command line ends with the settings' extra arguments when they are not blank, else with the extra options when not blank, else with ` -Z "preset"` for a non-blank preset |
| HandBrakeCli.ClipStopIsDuration | Batchbrake/Utilities/HandbrakeCLIWrapper.cs:386-388 | The clip suffix follows the arguments and ends with `--stop-at seconds:D` where D is end − start, not the end |
| HandBrakeCli.StopAtDigits | Batchbrake/Utilities/HandbrakeCLIWrapper.cs:388 | The stop value is written as its decimal digits |
| HandBrakeCli.DefaultsNoFlags | Batchbrake/Utilities/HandbrakeCLIWrapper.cs:463-503 | Default settings give no flag and the empty string |
| HandBrakeCli.AdditionalArgumentsEmpty | Batchbrake/Utilities/HandbrakeCLIWrapper.cs:503 | The trimmed text is empty exactly when no flag applies, and otherwise starts with '-' |
| HandBrakeCli.SettingFlagsApply | Batchbrake/Utilities/HandbrakeCLIWrapper.cs:470-501 | A flag is emitted exactly when its setting differs from the default (-2 when two-pass, -T when two-pass and turbo) |
| HandBrakeCli.SettingFlags | Batchbrake/Utilities/HandbrakeCLIWrapper.cs:470-501 | Only flags whose setting differs from the default are emitted; SettingFlagsApply gives the converse and SettingFlagsOrdered the order |
| HandBrakeCli.SettingFlagsOrdered | Batchbrake/Utilities/HandbrakeCLIWrapper.cs:470-501 | The flags come in the order -q, -e, -2, -T, -E, -B, each at most once |
| HandBrakeCli.TurboFollowsTwoPass | Batchbrake/Utilities/HandbrakeCLIWrapper.cs:482-489 | -T is only ever emitted right after -2 |
| HandBrakeCli.FlagText | Batchbrake/Utilities/HandbrakeCLIWrapper.cs:472-500 | Each flag's text starts with " -" |
| HandBrakeCli.ConversionOutcome | Batchbrake/Utilities/HandbrakeCLIWrapper.cs:569-607 | Success exactly when the process exited with code 0 and no cancellation was requested; cancellation gives "Conversion was cancelled", a non-zero exit its stderr, a thrown exception its message |
| HandBrakeCli.CommandOutcome | Batchbrake/Utilities/HandbrakeCLIWrapper.cs:654-691 | The command helper returns stdout + stderr exactly on exit code 0, and throws otherwise |
| HandBrakeCli.ExitMessageNamesCode | Batchbrake/Utilities/HandbrakeCLIWrapper.cs:685 | The thrown message starts "HandbrakeCLI exited with code " followed by the code's digits |
| HandBrakeCli.ExitMessage | Batchbrake/Utilities/HandbrakeCLIWrapper.cs:685 | The thrown message starts with "HandbrakeCLI exited with code " and ends with ".\nError: " and the error text |
| HandBrakeCli.IsAvailable | Batchbrake/Utilities/HandbrakeCLIWrapper.cs:627-638 | Available exactly when `--version` exits with 0 and its output contains "HandBrake" |
| HandBrakeCli.ConversionAgreesWithCommand | Batchbrake/Utilities/HandbrakeCLIWrapper.cs:583 | Not cancelled, a conversion succeeds exactly when the command helper would return normally |
| HandBrakeCli.SupportedFormats | Batchbrake/Utilities/HandbrakeCLIWrapper.cs:644-647 | The formats are distinct and include the default format "mp4" |
| SegmentEditor.ParseTimeSpan | Batchbrake/ViewModels/SegmentEditorViewModel.cs:184-232 | A result is a non-negative number of seconds for text that is not blank |
| SegmentEditor.ParseByShape | Batchbrake/ViewModels/SegmentEditorViewModel.cs:186-231 | The result is the first pattern that matches and converts; the clock and minutes forms always convert |
| SegmentEditor.Match | Batchbrake/ViewModels/SegmentEditorViewModel.cs:192-199 | A match yields one group per field of the pattern (three, two or one), each a non-empty run of digits |
| SegmentEditor.MatchJoin | Batchbrake/ViewModels/SegmentEditorViewModel.cs:192-199 | The groups joined by ':' are the matched text |
| SegmentEditor.Convert | Batchbrake/ViewModels/SegmentEditorViewModel.cs:204-221 | A converted value is never negative |
| SegmentEditor.FirstParse | Batchbrake/ViewModels/SegmentEditorViewModel.cs:197-229 | The first pattern that gives a value wins; values are never negative |
| SegmentEditor.ParseClock | Batchbrake/ViewModels/SegmentEditorViewModel.cs:204-210 | `H:MM:SS` and `HH:MM:SS` give h·3600 + m·60 + s |
| SegmentEditor.ParseMinutes | Batchbrake/ViewModels/SegmentEditorViewModel.cs:211-216 | `M:SS` and `MM:SS` give m·60 + s |
| SegmentEditor.ParseSeconds | Batchbrake/ViewModels/SegmentEditorViewModel.cs:217-227 | Digits alone give their value while it fits an int, and none when `int.Parse` throws |
| SegmentEditor.UncheckedFields | Batchbrake/ViewModels/SegmentEditorViewModel.cs:204-215 | "0:99:99" is accepted as 99·60 + 99: the fields are not range-checked |
| SegmentEditor.FinalNewline | Batchbrake/ViewModels/SegmentEditorViewModel.cs:192-199 | A text and the same text with one final newline parse alike (the regex `$` matches before it) |
| SegmentEditor.Line | Batchbrake/ViewModels/SegmentEditorViewModel.cs:192-199 | The text with at most one final newline removed |
| SegmentEditor.TwoDigits | Batchbrake/ViewModels/SegmentEditorViewModel.cs:251 | Two decimal digits for a number below 100 |
| SegmentEditor.ClockText | Batchbrake/ViewModels/SegmentEditorViewModel.cs:251-267 | The "hh:mm:ss" text is eight characters with colons at 2 and 5 |
| SegmentEditor.ClockTextRoundTrip | Batchbrake/ViewModels/SegmentEditorViewModel.cs:251-254 | The text a clip time is shown as parses back to the time modulo a day |
| SegmentEditor.ClockOf | Batchbrake/ViewModels/SegmentEditorViewModel.cs:251-254 | The text of a span within a day parses back to it |
| SegmentEditor.ClockOfFields | Batchbrake/ViewModels/SegmentEditorViewModel.cs:251-254 | Two-digit hours, minutes and seconds in range parse back to h·3600 + m·60 + s |
| SegmentEditor.Segment.constructor | Batchbrake/ViewModels/SegmentEditorViewModel.cs:285-288 | A row shares the given clip, with index 0 |
| SegmentEditor.Segment.StartTimeText | Batchbrake/ViewModels/SegmentEditorViewModel.cs:249-251 | The shown start time parses back to the start modulo a day |
| SegmentEditor.Segment.EndTimeText | Batchbrake/ViewModels/SegmentEditorViewModel.cs:265-267 | The shown end time parses back to the end modulo a day |
| SegmentEditor.Segment.SetStartTimeText | Batchbrake/ViewModels/SegmentEditorViewModel.cs:252-262 | The start becomes the parsed time when the text parses and is unchanged otherwise; the end is not checked |
| SegmentEditor.Segment.SetEndTimeText | Batchbrake/ViewModels/SegmentEditorViewModel.cs:268-278 | The end becomes the parsed time when the text parses and is unchanged otherwise; the start is not checked |
| SegmentEditor.SortByKey | Batchbrake/ViewModels/SegmentEditorViewModel.cs:129 | `OrderBy` keeps the same elements |
| SegmentEditor.SortByKeySorted | Batchbrake/ViewModels/SegmentEditorViewModel.cs:129 | `OrderBy`'s result is sorted by key |
| SegmentEditor.SortByKeyStable | Batchbrake/ViewModels/SegmentEditorViewModel.cs:129 | Elements with equal keys keep their relative order |
| SegmentEditor.InsertByKey | Batchbrake/ViewModels/SegmentEditorViewModel.cs:129 | Insertion adds exactly one element |
| SegmentEditor.InsertByKeySorted | Batchbrake/ViewModels/SegmentEditorViewModel.cs:129 | Inserting into a sorted list keeps it sorted |
| SegmentEditor.InsertedRows | Batchbrake/ViewModels/SegmentEditorViewModel.cs:125-134 | The rows after an add are the old distinct rows plus the new one, sorted by start |
| SegmentEditor.SortedRows | Batchbrake/ViewModels/SegmentEditorViewModel.cs:129-134 | Sorting distinct rows gives the same distinct rows, each keyed by its start |
| SegmentEditor.Accepts | Batchbrake/ViewModels/SegmentEditorViewModel.cs:95-117 | A pair is accepted when both parse, start < end and end <= duration |
| SegmentEditor.NoDurationRejects | Batchbrake/ViewModels/SegmentEditorViewModel.cs:43 | Without video information the duration is 0 and nothing is accepted |
| SegmentEditor.SegmentEditor.VideoDuration | Batchbrake/ViewModels/SegmentEditorViewModel.cs:43 | Zero without video information |
| SegmentEditor.SegmentEditor.constructor | Batchbrake/ViewModels/SegmentEditorViewModel.cs:53-74 | The dialog shows one fresh row per clip of the video, in order, numbered 1..n, with empty inputs |
| SegmentEditor.SegmentEditor.LoadSegmentsFromVideo | Batchbrake/ViewModels/SegmentEditorViewModel.cs:76-88 | The rows are one fresh row per clip, in order, numbered 1..n |
| SegmentEditor.SegmentEditor.UpdateSegmentIndexes | Batchbrake/ViewModels/SegmentEditorViewModel.cs:176-182 | Rows numbered 1..n in order; the rows and their clips are unchanged |
| SegmentEditor.SegmentEditor.AddSegment | Batchbrake/ViewModels/SegmentEditorViewModel.cs:90-139 | A rejected pair changes nothing; an accepted one adds a fresh row and clip, stably sorted by start, renumbers, and clears both inputs |
| SegmentEditor.SegmentEditor.AddParsed | Batchbrake/ViewModels/SegmentEditorViewModel.cs:95-138 | `AddSegment` once both texts are parsed |
| SegmentEditor.SegmentEditor.AddAccepted | Batchbrake/ViewModels/SegmentEditorViewModel.cs:119-138 | An accepted pair: the row goes in sorted, and both texts are cleared |
| SegmentEditor.SegmentEditor.InsertSegment | Batchbrake/ViewModels/SegmentEditorViewModel.cs:119-134 | The new row is placed by a stable sort on start and the rows renumbered |
| SegmentEditor.SegmentEditor.PlaceRow | Batchbrake/ViewModels/SegmentEditorViewModel.cs:126-134 | The rows are the old rows plus the new one, stably sorted by start |
| SegmentEditor.SegmentEditor.RemoveSegment | Batchbrake/ViewModels/SegmentEditorViewModel.cs:141-144 | The first occurrence of the row is removed and the rest renumbered |
| SegmentEditor.SegmentEditor.ClearAllSegments | Batchbrake/ViewModels/SegmentEditorViewModel.cs:146-149 | No rows are left |
| SegmentEditor.SegmentEditor.SaveAndClose | Batchbrake/ViewModels/SegmentEditorViewModel.cs:151-169 | The video's clips become the rows' clips in order, and the dialog closes with true |
| SegmentEditor.SegmentEditor.Cancel | Batchbrake/ViewModels/SegmentEditorViewModel.cs:171-174 | The dialog closes with false and the video is untouched |
| SegmentEditor.EditThenCancel | Batchbrake/ViewModels/SegmentEditorViewModel.cs:252-262 | A text setter changes the shared clip at once, so Cancel does not undo an edit |
| PreferencesEditor.Opened | Batchbrake/ViewModels/PreferencesViewModel.cs:22-34 | The view copies the twelve scalars and shows the extensions joined by ", " |
| PreferencesEditor.Saved | Batchbrake/ViewModels/PreferencesViewModel.cs:152-174 | The saved list has no duplicate and every entry starts with "." with no comma or surrounding white space |
| PreferencesEditor.ParseWellFormed | Batchbrake/ViewModels/PreferencesViewModel.cs:166-172 | Whatever the text, the parsed list is duplicate-free and every entry is well formed |
| PreferencesEditor.ParseExtensions | Batchbrake/ViewModels/PreferencesViewModel.cs:166-172 | The parsed list has no duplicate; ParseWellFormed states the shape of each entry |
| PreferencesEditor.ParseJoinRoundTrip | Batchbrake/ViewModels/PreferencesViewModel.cs:34 | Join then parse gives a list back exactly when its entries are distinct and well formed |
| PreferencesEditor.ExtensionsText | Batchbrake/ViewModels/PreferencesViewModel.cs:34 | No extension shows "", and one shows itself; ParseJoinRoundTrip relates the text to the parse |
| PreferencesEditor.OpenSaveRoundTrip | Batchbrake/ViewModels/PreferencesViewModel.cs:22-34 | Opening and saving unedited gives the preferences back exactly when their extensions are distinct and well formed |
| PreferencesEditor.RestoreSaveDefaults | Batchbrake/ViewModels/PreferencesViewModel.cs:190-207 | Restoring the defaults and saving makes the preferences the defaults |
| PreferencesEditor.DefaultExtensionsWellFormed | Batchbrake/Models/Preferences.cs:74-77 | The default extensions are distinct and well formed |
| PreferencesEditor.PreferencesEditor.constructor | Batchbrake/ViewModels/PreferencesViewModel.cs:15-34 | The view shows the given preferences and no callback has run |
| PreferencesEditor.PreferencesEditor.Save | Batchbrake/ViewModels/PreferencesViewModel.cs:147-183 | The preferences become `Saved` of the view and are passed to the save callback when there is one |
| PreferencesEditor.PreferencesEditor.Cancel | Batchbrake/ViewModels/PreferencesViewModel.cs:185-188 | Only the cancel callback runs, when there is one |
| PreferencesEditor.PreferencesEditor.RestoreDefaults | Batchbrake/ViewModels/PreferencesViewModel.cs:190-207 | The view shows a fresh `Preferences`; the preferences are untouched |
| HandBrakeSettingsEditor.WithFileSpec | Batchbrake/ViewModels/HandBrakeSettingsViewModel.cs:75-78 | Adding keeps the list as a prefix, adds exactly the non-blank new path, and keeps it duplicate-free |
| HandBrakeSettingsEditor.WithFileIdempotent | Batchbrake/ViewModels/HandBrakeSettingsViewModel.cs:335-339 | Adding the same file twice adds it once |
| HandBrakeSettingsEditor.WithoutFileSpec | Batchbrake/ViewModels/HandBrakeSettingsViewModel.cs:348-357 | In a duplicate-free list, removal drops exactly a non-blank path and keeps the list duplicate-free |
| HandBrakeSettingsEditor.RemoveAfterAdd | Batchbrake/ViewModels/HandBrakeSettingsViewModel.cs:333-357 | Removing a file just added restores the list |
| HandBrakeSettingsEditor.AllPresetsMembers | Batchbrake/ViewModels/HandBrakeSettingsViewModel.cs:249-256 | A name is offered exactly when some category holds it |
| HandBrakeSettingsEditor.AvailablePresetsSpec | Batchbrake/ViewModels/HandBrakeSettingsViewModel.cs:249-278 | The offered names are the base names followed by the default preset exactly when it is non-empty and missing |
| HandBrakeSettingsEditor.FallbackHoldsDefault | Batchbrake/ViewModels/HandBrakeSettingsViewModel.cs:266-278 | The fallback names are distinct and already hold "Fast 1080p30" |
| HandBrakeSettingsEditor.HandBrakeSettingsEditor.LoadAvailablePresets | Batchbrake/ViewModels/HandBrakeSettingsViewModel.cs:236-280 | The offered names become `AvailablePresets` of the catalogue (none when loading failed) and the default preset |
| HandBrakeSettingsEditor.HandBrakeSettingsEditor.constructor | Batchbrake/ViewModels/HandBrakeSettingsViewModel.cs:45-93 | The view copies the settings (with the check box negated), migrates the legacy file into the list, and loads the offered names |
| HandBrakeSettingsEditor.HandBrakeSettingsEditor.AddPresetFile | Batchbrake/ViewModels/HandBrakeSettingsViewModel.cs:333-346 | A non-blank path not yet listed is appended, the text cleared and the names reloaded; otherwise nothing changes |
| HandBrakeSettingsEditor.HandBrakeSettingsEditor.RemovePresetFile | Batchbrake/ViewModels/HandBrakeSettingsViewModel.cs:348-357 | A non-blank path loses its first occurrence and the names are reloaded; a blank one changes nothing |
| HandBrakeSettingsEditor.HandBrakeSettingsEditor.ClearPresetFiles | Batchbrake/ViewModels/HandBrakeSettingsViewModel.cs:359-365 | The list is emptied and the names reloaded |
| HandBrakeSettingsEditor.HandBrakeSettingsEditor.Save | Batchbrake/ViewModels/HandBrakeSettingsViewModel.cs:367-391 | Every field is written back with the check box negated, the list copied, and the window closed with true |
| HandBrakeSettingsEditor.HandBrakeSettingsEditor.Cancel | Batchbrake/ViewModels/HandBrakeSettingsViewModel.cs:393-396 | The window closes with false and nothing is written |
| HandBrakeSettingsEditor.HandBrakeSettingsEditor.ResetToDefaults | Batchbrake/ViewModels/HandBrakeSettingsViewModel.cs:398-422 | The fields show the initialisers with the check box cleared, the list is emptied, the names reloaded |
| HandBrakeSettingsEditor.ResetThenSave | Batchbrake/ViewModels/HandBrakeSettingsViewModel.cs:398-422 | Saving after Reset enables the update check, which a fresh settings object has disabled |
| HandBrakeSettingsEditor.OpenedAsWritten | Batchbrake/ViewModels/HandBrakeSettingsViewModel.cs:67 | As written the constructor copies the flag into the "disabled" check box unnegated |
| HandBrakeSettingsEditor.OpenSaveFlipsAsWritten | Batchbrake/ViewModels/HandBrakeSettingsViewModel.cs:67 | As written, opening and saving unedited flips the update-check setting |
| HandBrakeSettingsEditor.Opened | Batchbrake/ViewModels/HandBrakeSettingsViewModel.cs:52-69 | The view copies every field, the check box showing the negated flag |
| HandBrakeSettingsEditor.Saved | Batchbrake/ViewModels/HandBrakeSettingsViewModel.cs:370-387 | Save writes back every field and `UpdateCheckEnabled = !UpdateCheckDisabled` |
| HandBrakeSettingsEditor.OpenSaveRoundTrip | Batchbrake/ViewModels/HandBrakeSettingsViewModel.cs:52-69 | With the negation, opening and saving unedited gives the settings back |
| HandBrakeSettingsEditor.OpenThenSave | Batchbrake/ViewModels/HandBrakeSettingsViewModel.cs:367-391 | Constructing the editor on a settings object and calling Save unedited leaves every value as it was; the file list only gains the migrated legacy file |
| HandBrakeOptions.HandBrakeSettings.constructor | Batchbrake/Models/HandBrakeSettings.cs:9-27 | A new object has the field initialisers, an empty file list, and nothing raised |
| HandBrakeOptions.HandBrakeSettings.SetHandBrakeCliPath | Batchbrake/Models/HandBrakeSettings.cs:29-40 | The value is stored, and `HandBrakeCLIPath` is raised exactly when it differed from the old one |
| HandBrakeOptions.HandBrakeSettings.SetDefaultPreset | Batchbrake/Models/HandBrakeSettings.cs:42-53 | The value is stored, and `DefaultPreset` is raised exactly when it differed |
| HandBrakeOptions.HandBrakeSettings.SetOutputFormat | Batchbrake/Models/HandBrakeSettings.cs:55-66 | The value is stored, and `OutputFormat` is raised exactly when it differed |
| HandBrakeOptions.HandBrakeSettings.SetQualityValue | Batchbrake/Models/HandBrakeSettings.cs:68-79 | The value is stored, and `QualityValue` is raised exactly when it differed |
| HandBrakeOptions.HandBrakeSettings.SetTwoPass | Batchbrake/Models/HandBrakeSettings.cs:81-92 | The value is stored, and `TwoPass` is raised exactly when it differed |
| HandBrakeOptions.HandBrakeSettings.SetTurboFirstPass | Batchbrake/Models/HandBrakeSettings.cs:94-105 | The value is stored, and `TurboFirstPass` is raised exactly when it differed |
| HandBrakeOptions.HandBrakeSettings.SetVideoEncoder | Batchbrake/Models/HandBrakeSettings.cs:107-118 | The value is stored, and `VideoEncoder` is raised exactly when it differed |
| HandBrakeOptions.HandBrakeSettings.SetAudioEncoder | Batchbrake/Models/HandBrakeSettings.cs:120-131 | The value is stored, and `AudioEncoder` is raised exactly when it differed |
| HandBrakeOptions.HandBrakeSettings.SetAudioBitrate | Batchbrake/Models/HandBrakeSettings.cs:133-144 | The value is stored, and `AudioBitrate` is raised exactly when it differed |
| HandBrakeOptions.HandBrakeSettings.SetAudioMixdown | Batchbrake/Models/HandBrakeSettings.cs:146-157 | The value is stored, and `AudioMixdown` is raised exactly when it differed |
| HandBrakeOptions.HandBrakeSettings.SetIncludeChapterMarkers | Batchbrake/Models/HandBrakeSettings.cs:159-170 | The value is stored, and `IncludeChapterMarkers` is raised exactly when it differed |
| HandBrakeOptions.HandBrakeSettings.SetOptimizeForWeb | Batchbrake/Models/HandBrakeSettings.cs:172-183 | The value is stored, and `OptimizeForWeb` is raised exactly when it differed |
| HandBrakeOptions.HandBrakeSettings.SetIPodCompatible | Batchbrake/Models/HandBrakeSettings.cs:185-196 | The value is stored, and `IPodCompatible` is raised exactly when it differed |
| HandBrakeOptions.HandBrakeSettings.SetAdditionalArguments | Batchbrake/Models/HandBrakeSettings.cs:198-209 | The value is stored, and `AdditionalArguments` is raised exactly when it differed |
| HandBrakeOptions.HandBrakeSettings.SetVerbosity | Batchbrake/Models/HandBrakeSettings.cs:211-222 | The value is stored, and `Verbosity` is raised exactly when it differed |
| HandBrakeOptions.HandBrakeSettings.SetUpdateCheckEnabled | Batchbrake/Models/HandBrakeSettings.cs:224-235 | The value is stored, and `UpdateCheckEnabled` is raised exactly when it differed |
| HandBrakeOptions.HandBrakeSettings.SetSendFileDone | Batchbrake/Models/HandBrakeSettings.cs:237-248 | The value is stored, and `SendFileDone` is raised exactly when it differed |
| HandBrakeOptions.HandBrakeSettings.SetCustomPresetFile | Batchbrake/Models/HandBrakeSettings.cs:253-264 | The value is stored, and `CustomPresetFile` is raised exactly when it differed |
| HandBrakeOptions.HandBrakeSettings.SetCustomPresetFiles | Batchbrake/Models/HandBrakeSettings.cs:269-280 | A null list stores an empty one; the change is always raised, since every caller passes a new list |
| HandBrakeOptions.HandBrakeSettings.AssignGeneral | Batchbrake/Models/HandBrakeSettings.cs:293-295 | The CLI path, default preset and format are written through their setters |
| HandBrakeOptions.HandBrakeSettings.AssignVideo | Batchbrake/Models/HandBrakeSettings.cs:296-299 | The quality, pass and video encoder options are written through their setters |
| HandBrakeOptions.HandBrakeSettings.AssignAudio | Batchbrake/Models/HandBrakeSettings.cs:300-302 | The audio options are written through their setters |
| HandBrakeOptions.HandBrakeSettings.AssignContainer | Batchbrake/Models/HandBrakeSettings.cs:303-305 | The container options are written through their setters |
| HandBrakeOptions.HandBrakeSettings.AssignAdvanced | Batchbrake/Models/HandBrakeSettings.cs:306-310 | The remaining scalar options are written through their setters |
| HandBrakeOptions.HandBrakeSettings.AssignEncoding | Batchbrake/Models/HandBrakeSettings.cs:293-302 | The general, video and audio options are written through their setters |
| HandBrakeOptions.HandBrakeSettings.AssignOutput | Batchbrake/Models/HandBrakeSettings.cs:303-311 | The container and remaining options, then the file list, are written through their setters |
| HandBrakeOptions.HandBrakeSettings.Assign | Batchbrake/Models/HandBrakeSettings.cs:291-312 | Every scalar and the file list take the given values, written through the setters in declaration order |
| HandBrakeOptions.HandBrakeSettings.Clone | Batchbrake/Models/HandBrakeSettings.cs:289-313 | A new object with every value equal to this one's and its own copy of the file list |
| FFmpegOptions.FFmpegSettings.constructor | Batchbrake/Models/FFmpegSettings.cs:8-17 | A new object has the initialisers ffmpeg, ffprobe, 0, libx264, aac, "", false, auto, 2, true and nothing raised |
| FFmpegOptions.FFmpegSettings.SetFFmpegPath | Batchbrake/Models/FFmpegSettings.cs:19-30 | The value is stored, and `FFmpegPath` is raised exactly when it differed |
| FFmpegOptions.FFmpegSettings.SetFFprobePath | Batchbrake/Models/FFmpegSettings.cs:32-43 | The value is stored, and `FFprobePath` is raised exactly when it differed |
| FFmpegOptions.FFmpegSettings.SetThreadCount | Batchbrake/Models/FFmpegSettings.cs:45-56 | The value is stored, and `ThreadCount` is raised exactly when it differed |
| FFmpegOptions.FFmpegSettings.SetVideoCodec | Batchbrake/Models/FFmpegSettings.cs:58-69 | The value is stored, and `VideoCodec` is raised exactly when it differed |
| FFmpegOptions.FFmpegSettings.SetAudioCodec | Batchbrake/Models/FFmpegSettings.cs:71-82 | The value is stored, and `AudioCodec` is raised exactly when it differed |
| FFmpegOptions.FFmpegSettings.SetAdditionalArguments | Batchbrake/Models/FFmpegSettings.cs:84-95 | The value is stored, and `AdditionalArguments` is raised exactly when it differed |
| FFmpegOptions.FFmpegSettings.SetHardwareAcceleration | Batchbrake/Models/FFmpegSettings.cs:97-108 | The value is stored, and `HardwareAcceleration` is raised exactly when it differed |
| FFmpegOptions.FFmpegSettings.SetHardwareAccelerationMethod | Batchbrake/Models/FFmpegSettings.cs:110-121 | The value is stored, and `HardwareAccelerationMethod` is raised exactly when it differed |
| FFmpegOptions.FFmpegSettings.SetLogLevel | Batchbrake/Models/FFmpegSettings.cs:123-134 | The value is stored, and `LogLevel` is raised exactly when it differed |
| FFmpegOptions.FFmpegSettings.SetOverwriteOutput | Batchbrake/Models/FFmpegSettings.cs:136-147 | The value is stored, and `OverwriteOutput` is raised exactly when it differed |
| FFmpegOptions.FFmpegSettings.AssignTools | Batchbrake/Models/FFmpegSettings.cs:160-162 | The tool paths and thread count are written through their setters |
| FFmpegOptions.FFmpegSettings.AssignCodecs | Batchbrake/Models/FFmpegSettings.cs:163-165 | The codecs and extra arguments are written through their setters |
| FFmpegOptions.FFmpegSettings.AssignBehaviour | Batchbrake/Models/FFmpegSettings.cs:166-169 | The acceleration, log level and overwrite options are written through their setters |
| FFmpegOptions.FFmpegSettings.Clone | Batchbrake/Models/FFmpegSettings.cs:156-171 | A new object whose every value equals this one's |
| FFmpegOptions.EditClone | Batchbrake/Models/FFmpegSettings.cs:158-170 | The clone is a separate object: a setter call on it leaves the original's values as they were |
| FFmpegWrapper.FormatFileSize | Batchbrake/Utilities/FFmpegWrapper.cs:108-121 | The unit is `UnitIndex(bytes)` and the amount times 1024 to that power is the byte count, exactly |
| FFmpegWrapper.UnitIndex | Batchbrake/Utilities/FFmpegWrapper.cs:110-118 | The unit index is at most 4 ("TB") |
| FFmpegWrapper.UnitIndexSpec | Batchbrake/Utilities/FFmpegWrapper.cs:114-118 | The unit is the largest k in 0..4 with 1024^k <= bytes, and 0 below 1024 |
| FFmpegWrapper.UnitIndexBelow | Batchbrake/Utilities/FFmpegWrapper.cs:114-118 | A size below 1024^j is shown in a unit below j |
| FFmpegWrapper.SmallSize | Batchbrake/Utilities/FFmpegWrapper.cs:110-120 | Below 1024 bytes the size is the whole byte count in "B", shown as its digits followed by " B" |
| FFmpegWrapper.WholeText | Batchbrake/Utilities/FFmpegWrapper.cs:120 | A text is given exactly for a whole amount, which "0.##" prints without decimals |
| FFmpegWrapper.FindDuration | Batchbrake/Utilities/FFmpegWrapper.cs:69 | The match found has digit groups for hours, minutes and seconds |
| FFmpegWrapper.FindDurationLeftmost | Batchbrake/Utilities/FFmpegWrapper.cs:69 | The match found is the one at the first position where the pattern matches; none means no position matches |
| FFmpegWrapper.DurationAt | Batchbrake/Utilities/FFmpegWrapper.cs:69 | A match at the front starts with "Duration:" and has three digit groups |
| FFmpegWrapper.Group | Batchbrake/Utilities/FFmpegWrapper.cs:69 | A group is a non-empty run of digits |
| FFmpegWrapper.DigitRun | Batchbrake/Utilities/FFmpegWrapper.cs:69 | The longest run of digits the text starts with |
| FFmpegWrapper.NoDurationLine | Batchbrake/Utilities/FFmpegWrapper.cs:68-76 | Without "Duration:" in the text there is no match and the duration stays 0 |
| FFmpegWrapper.DurationLineMatches | Batchbrake/Utilities/FFmpegWrapper.cs:69 | A line "Duration: H:M:S.F" at the front matches with H, M and S as its groups, whatever follows |
| FFmpegWrapper.DurationOfClock | Batchbrake/Utilities/FFmpegWrapper.cs:70-75 | A found match of in-range numbers gives h·3600 + m·60 + s seconds, the fraction ignored |
| FFmpegWrapper.DurationOfLine | Batchbrake/Utilities/FFmpegWrapper.cs:68-76 | A duration line after text without 'D' gives h·3600 + m·60 + s, whatever follows it |
| FFmpegWrapper.Duration | Batchbrake/Utilities/FFmpegWrapper.cs:68-76 | 0 without a match; otherwise a value between 0 and the largest TimeSpan, or the exception; DurationOfClock states the arithmetic |
| FFmpegWrapper.SkipToLine | Batchbrake/Utilities/FFmpegWrapper.cs:69 | A match cannot start inside text that has no 'D' |
| FFmpegWrapper.FailureMessage | Batchbrake/Utilities/FFmpegWrapper.cs:48 | The exception for an unexpected exit starts "FFmpeg exited with code " |
| FFmpegWrapper.ParseVideoInfo | Batchbrake/Utilities/FFmpegWrapper.cs:61-101 | `ParsedInfo`: an error exactly when `Duration` fails (a failing `int.Parse` or `TimeSpan` throws); otherwise the file name is the path's last component, the duration is `Duration`'s, the two matches are kept, and the size is set exactly when the file exists |
| FFmpegWrapper.ParsedInfo | Batchbrake/Utilities/FFmpegWrapper.cs:61-101 | What parsing promises: an error exactly when `Duration` fails; otherwise the file name, the duration, the two matches, and the size exactly when the file exists |
| FFmpegWrapper.GetVideoInfo | Batchbrake/Utilities/FFmpegWrapper.cs:30-53 | Any exit code other than 0 and 1 throws with that code and the output; on 0 or 1 the result satisfies `ParsedInfo`, everything parsing the output promises |
| Paths.LastIndexOf | Batchbrake/ViewModels/MainWindowViewModel.cs:176-180 | The last position of the character, or -1 when there is none |
| Paths.DirectoryName | Batchbrake/ViewModels/MainWindowViewModel.cs:176 | The directory is a prefix of the path that does not end with the separator, except the root itself, which a rooted path always keeps |
| Paths.DirectoryNameOfRooted | Batchbrake/ViewModels/VideoViewModel.cs:229 | A name directly under the root has the root `\` as its directory |
| Paths.FileName | Batchbrake/Utilities/FFmpegWrapper.cs:65 | The file name has no separator and ends the path |
| Paths.FileNameWithoutExtension | Batchbrake/ViewModels/MainWindowViewModel.cs:179 | The stem has no separator and starts the file name |
| Paths.Extension | Batchbrake/ViewModels/MainWindowViewModel.cs:180 | The extension is empty or a dot followed by a non-empty dot-free tail, and it ends the file name |
| Paths.Combine | Batchbrake/ViewModels/VideoViewModel.cs:231 | A relative non-empty name ends the combined path |
| Paths.FileNameOfCombine | Batchbrake/ViewModels/VideoViewModel.cs:231 | A name combined onto a directory is the file name of the result |
| Paths.DirectoryNameOfCombine | Batchbrake/ViewModels/VideoViewModel.cs:229-231 | A directory `DirectoryName` can return (none, the root, or one not ending with the separator) is recovered from the combined path |
| Paths.CombineParts | Batchbrake/ViewModels/VideoViewModel.cs:229-231 | The directory, stem and extension of a path built from them are those parts |
| Paths.StemAndExtension | Batchbrake/ViewModels/VideoViewModel.cs:230-231 | The stem and extension of `stem.ext` for a dot-free extension |
| Paths.StemThenExtension | Batchbrake/ViewModels/MainWindowViewModel.cs:179-180 | The stem followed by the extension is the file name, unless the name ends with '.' |
| Paths.PartsOfFileName | Batchbrake/ViewModels/MainWindowViewModel.cs:179-180 | Stem and extension depend on the file name alone |
| Text.Trim | Batchbrake/Utilities/HandbrakeCLIWrapper.cs:351 | `Trim` leaves a string that neither starts nor ends with white space |
| Text.TrimBlank | Batchbrake/Utilities/HandbrakeCLIWrapper.cs:351 | `Trim` leaves nothing exactly when the string is all white space |
| Text.TrimStartParts | Batchbrake/ViewModels/MainWindowViewModel.cs:180 | `TrimStart` keeps a suffix and drops only white space |
| Text.TrimEndParts | Batchbrake/Utilities/HandbrakeCLIWrapper.cs:356 | `TrimEnd` keeps a prefix and drops only white space |
| Text.TrimEndChar | Batchbrake/Utilities/HandbrakeCLIWrapper.cs:356 | `TrimEnd('/')` keeps a prefix, drops only trailing '/' and leaves none |
| Text.TrimStartChar | Batchbrake/ViewModels/MainWindowViewModel.cs:180 | `TrimStart('.')` keeps a suffix, drops only leading '.' and leaves none |
| Text.Split | Batchbrake/Utilities/HandbrakeCLIWrapper.cs:347 | The pieces contain no separator, and there is at least one |
| Text.SplitNonEmpty | Batchbrake/Utilities/HandbrakeCLIWrapper.cs:347 | `RemoveEmptyEntries` leaves only non-empty pieces |
| Text.SplitAt | Batchbrake/ViewModels/PreferencesViewModel.cs:167 | Splitting at the first separator cuts off the text before it |
| Text.Join | Batchbrake/ViewModels/PreferencesViewModel.cs:34 | Joining nothing is "", and one element is itself |
| Text.ReplaceLacking | Batchbrake/ViewModels/MainWindowViewModel.cs:177-180 | A string without the pattern's first character is left as it is |
| Text.Replace | Batchbrake/ViewModels/MainWindowViewModel.cs:177-180 | Replacing a pattern by itself leaves the text unchanged; ReplaceFront and ReplaceLacking state the scan |
| Text.ReplaceFront | Batchbrake/ViewModels/MainWindowViewModel.cs:177-180 | An occurrence at the front is replaced and the scan goes on after it |
| Text.ReplaceAfterLacking | Batchbrake/ViewModels/MainWindowViewModel.cs:177-180 | No occurrence can start inside a prefix that lacks the pattern's first character |
| Text.ReplaceSkipsToken | Batchbrake/ViewModels/MainWindowViewModel.cs:177-180 | A placeholder neither prefixing nor prefixed by the pattern is skipped whole |
| Text.ParseInt | Batchbrake/ViewModels/SegmentEditorViewModel.cs:206-219 | `int.Parse` of digits gives their value, and none for a value above `int.MaxValue` |
| Text.NatToStringRoundTrip | Batchbrake/Utilities/HandbrakeCLIWrapper.cs:388 | The decimal rendering of a number reads back as that number |
| Text.NatToStringInjective | Batchbrake/Utilities/HandbrakeCLIWrapper.cs:685 | Distinct numbers render differently |
| Common.RemoveFirst | Batchbrake/ViewModels/MainWindowViewModel.cs:202 | `List.Remove` removes one element when the item is present and none otherwise |
| Common.RemoveFirstAt | Batchbrake/ViewModels/MainWindowViewModel.cs:202 | `List.Remove` drops exactly the first occurrence of the item and keeps the rest in order: the list before it followed by the list after it |
| Common.RemoveFirstMembers | Batchbrake/ViewModels/MainWindowViewModel.cs:202 | Removal keeps every other element, adds none, and in a duplicate-free list leaves no copy of the item |
| Common.WithoutMembers | Batchbrake/ViewModels/MainWindowViewModel.cs:266-269 | Removing a set keeps exactly the elements outside it |
| Common.DistinctSpec | Batchbrake/ViewModels/PreferencesViewModel.cs:171 | `Distinct` keeps each element once, adds none, and leaves no duplicate |
| Common.Distinct | Batchbrake/ViewModels/PreferencesViewModel.cs:171 | `Distinct` leaves no duplicate and is no longer than its input; DistinctFirstOccurrences states the order |
| Common.DistinctFromSnoc | Batchbrake/ViewModels/PreferencesViewModel.cs:171 | Appending one element to the input appends it to the result exactly when it is neither already seen nor earlier in the input |
| Common.DistinctFirstOccurrences | Batchbrake/ViewModels/PreferencesViewModel.cs:171 | `Distinct` equals the list of the elements that have no earlier copy, in input order: the first occurrences, in the order they first appear |
| Common.DistinctKeepsFirst | Batchbrake/ViewModels/PreferencesViewModel.cs:171 | On 2, 1, 2 `Distinct` gives 2, 1: the first copy stays in place and the later one goes |
| Common.DistinctFromKeeps | Batchbrake/ViewModels/PreferencesViewModel.cs:171 | `Distinct` leaves a duplicate-free list as it is |

## Left out

- The parallel conversion scheduler is absent from the code. `StartConversionCommand` (Batchbrake/ViewModels/MainWindowViewModel.cs:282-306) only sets a status, and the model follows the code. One conversion is modelled by `HandBrakeCli.ConversionOutcome`.
- Processes, files and the clock are not run; their outcomes are parameters:
  - a `ProcessRun` value holds the exit code and the captured output;
  - a set of existing paths stands in for the file system;
  - `DateTime.Now` is an integer parameter.
- The JSON serialisation of sessions is modelled as the identity, so a saved session is read back as the same value. The JSON text and its parse errors are not modelled.
- `async`/`await` is modelled as sequential code. Cancelling while the process is being waited on surfaces as the exception message (`ProcessRun.Failed`), not a separate "cancelled" result.
- Property-change notifications are recorded, as a log of property names, only for the two settings classes, `HandBrakeSettings` and `FFmpegSettings`. The `PropertyChanged` events that the view models raise through `RaiseAndSetIfChanged` are not modelled. This covers `VideoModelViewModel`, `SegmentEditorViewModel`, `PreferencesViewModel`, `MainWindowViewModel` and `HandBrakeSettingsViewModel`, and with them the `StartTimeText`, `Duration` and `PreviewText` notifications that the segment setters raise. The `Start` and `End` notifications of `ClipModel` (Video.Clip) are not modelled either.
- UI bindings, command can-execute notifications and collection-changed events are not modelled, except the queue's reindexing handler.
- HandBrakeOptions.HandBrakeSettings.Assign: the value each field ends with is stated, but not the order of the notifications the setters raise. `Clone` is stated the same way.
- FFmpegOptions.FFmpegSettings.Clone: the same limit as `Assign`; the notifications raised while copying are not stated.
- Strings that are `null` are modelled as `Option` only where the code tests for null: item paths, preset, output format and clips. Elsewhere strings are non-null.
- The culture-sensitive `StartsWith`, `EndsWith` and `Contains` are modelled as ordinal comparisons. White space is `char.IsWhiteSpace`'s set, written out.
- The regular expressions are modelled by hand:
  - the segment patterns and the FFmpeg `Duration:` pattern;
  - .NET's `\d`, which also matches non-ASCII digits, is limited to `0`-`9`;
  - the progress, resolution and codec patterns of the wrappers are not modelled.
- `TimeSpan` is a whole number of seconds. The fractional part of an FFmpeg duration is read but ignored, as in the source.
- FFmpegWrapper.FormatFileSize: `double` arithmetic and the `"0.##"` format are modelled with exact rationals. The text is given only for a whole amount.
- The video information parsed from FFmpeg's output keeps the file name, duration and size. The resolution and codec matches are parameters of the parse; their regular expressions are not modelled.
- Item progress is a `real`, because floating point is not modelled.
- File pickers, folder browsers and the other dialog commands that only open a window are not modelled. Display-only properties (`Duration`, `PreviewText`, `VideoFileName`) are not modelled either.
- `FFmpegSettingsViewModel` is not part of this model.
- The control flow of `GetAvailablePresetsAsync` around the table parse is simplified, and loading presets at start-up is not modelled. The parse itself is modelled.
- `PreferencesEditor` holds `Preferences` by value, so aliasing between the dialog and its caller is not modelled. An exception thrown by the save callback is not modelled.
- `ObservableCollection` identity is not modelled: a new collection is a new sequence, plus a flag saying whether its handler is attached.
- The dialog result is a field of each editor.
- Paths.DirectoryName: one separator (`\`), with no drive letters, UNC roots or alternate separators. Repeated separators inside the directory are kept, where `GetDirectoryName` on Windows collapses them. The `null` that `GetDirectoryName` returns for the root itself or an empty path is modelled as ""; the one caller that can pass the root alone, `UpdateOutputFilePath`, is modelled by Video.UpdateThrows as the `ArgumentNullException` that `Path.Combine` then raises.
- Queue.MainWindow.Valid: the queue's items are taken to be distinct objects. The source does not enforce this for a direct `VideoQueue.Add` of the same object twice.
- Video.VideoItem.HasSegments has no lemma of its own; it is used by `Session.SnapshotRoundTrip`.
- `SessionData` and `VideoInfoModel` lack members their users set: `Clips`, used at Batchbrake/Services/SessionManager.cs:119 and 157, and `FileSize`/`FileSizeBytes`, set at Batchbrake/Utilities/FFmpegWrapper.cs:96-97. The model gives both records the fields their users need.
- HandBrakeSettingsEditor.HandBrakeSettingsEditor.constructor: it copies the update-check flag negated, following the evident intent rather than Batchbrake/ViewModels/HandBrakeSettingsViewModel.cs:67 (see Findings).

## Findings

| source | as written | input that shows it | evidently intended | confidence | as-written member | corrected member |
|---|---|---|---|---|---|---|
| Batchbrake/ViewModels/HandBrakeSettingsViewModel.cs:67 | The dialog copies `UpdateCheckEnabled` into the `UpdateCheckDisabled` check box without negating it, while saving (line 385) stores `!UpdateCheckDisabled`. | Any settings, e.g. the defaults with `UpdateCheckEnabled` false: opening the dialog and saving it unedited stores true. | The check box shows `!UpdateCheckEnabled`, so opening and saving unedited gives the settings back. | not executed | HandBrakeSettingsEditor.OpenSaveFlipsAsWritten | HandBrakeSettingsEditor.OpenSaveRoundTrip |
