# TWRP recovery simulator — a Dafny model

This project models the deterministic core of a browser-based simulator of TWRP, the Team Win Recovery Project recovery. The simulator is a React application. Its core has five parts:

- **The terminal view.** It titles the run, picks a scripted log, replays that log line by line, and then offers a small shell. The shell knows `help`, `ls`, `date`, `echo`, `reboot`, `exit` and `clear`.
- **The four log generators.** They produce the install, factory-wipe, advanced-wipe and mount logs. Every random draw the simulator makes is an explicit input here: a `Draw` records whether a step fails and which error message it picks. This makes the line counts, the error tallies, the filtering of partitions and the summary lines exact statements.
- **The application shell.** It holds six pieces of state, switches between screens, and passes the user's choices to the terminal.
- **The selection screens:**
  - mount toggles and their diff;
  - the advanced-wipe and backup checklists;
  - the file-system change form;
  - the Odin firmware slots;
  - the licence lookup;
  - the file manager's directories-first listing.
- **The status bar.** It shows the clock and the battery.

Modules follow the source files:

| module | models |
|---|---|
| `Text` | the JavaScript string operations the core relies on: `trim`, `split(' ')`, `join`, `toLowerCase`, `replace` of a single character, `toString` and `padStart` on small numbers |
| `Types` | `null`-able values, the run kinds, mount operations |
| `Lists` | `filter(x => x !== item)` on string lists, subsequences, distinctness |
| `TerminalLogs` | the four log generators of `components/TerminalView.tsx` |
| `Terminal` | the title, the log choice, the command interpreter, the command history, and the terminal component |
| `App` | the application shell of `App.tsx` |
| `Mount`, `Selection`, `ChangeFs`, `Odin`, `Website`, `FileManager`, `Header` | the screens of the same names |

Stateful components are classes whose fields are the component's state and whose methods are its handlers. Expression-only code is functions. Where a generator builds its log with `push` in a loop, it is a method with a loop, proved equal to a specification function. Lemmas then prove properties of that function.

Some specification functions carry no contract of their own; the lemmas in the table state what they mean:

- `Terminal.Execute` and `Terminal.ExecuteCommand` (`executeCommand`, components/TerminalView.tsx:267-310): `FixedReplies`, `CommandEffects`, `UnknownCommand`, `CommandWords`, `EchoPrintsRest`, `EchoRoundTrip`, `LsArgument`, `LsMissing` and `RebootAndExit`, one or more per branch of the `switch`.
- `Terminal.LogLines` (the log choice, components/TerminalView.tsx:229-239): `LogLinesInstall` and `LogLinesDispatch`.
- `Text.Join` (`join`): `JoinSplit`, `SplitJoin` and `JoinTail`.
- `TerminalLogs.MountLogs` and `TerminalLogs.AdvancedWipeLogs`: the imperative generators proved equal to them, and the shape and outcome lemmas.

The system's written description also speaks of a virtual file system with directory creation, removal, moving and path resolution. No such code exists. The terminal knows only `ls /sdcard`, which prints a fixed four-line listing. The file manager receives its tree from outside as an untyped value. This model follows the code.

## Model

| member | source | states |
|---|---|---|
| Text.TrimStart | components/TerminalView.tsx:268 | drops exactly the leading whitespace |
| Text.TrimEnd | components/TerminalView.tsx:268 | drops exactly the trailing whitespace |
| Text.Trim | components/TerminalView.tsx:268 | the result is empty iff the input is all whitespace; otherwise it neither starts nor ends with whitespace |
| Text.TrimMargins | components/TerminalView.tsx:268 | the trim is the input's own characters between a whitespace-only margin in front and one behind |
| Text.TrimUnchanged | components/TerminalView.tsx:268 | a string that starts and ends with non-whitespace is its own trim |
| Text.Split | components/TerminalView.tsx:268 | `split(' ')` gives at least one piece, and no piece holds the separator |
| Text.JoinSplit | components/TerminalView.tsx:295 | joining the pieces of a split with the separator gives the string back |
| Text.SplitJoin | components/TerminalView.tsx:268 | splitting a join of separator-free pieces gives the pieces back |
| Text.JoinTail | components/TerminalView.tsx:295 | the pieces after the first, joined again, are exactly the text after the first separator |
| Text.SplitHead | components/TerminalView.tsx:268 | a string with a separator is its first piece, the separator, and the rest; one without is a single piece |
| Text.SplitPrefix | components/TerminalView.tsx:268 | a separator-free prefix only lengthens the first piece |
| Text.RemoveFirst | components/TerminalView.tsx:146 | removes one character exactly when `/` occurs, and changes nothing otherwise |
| Text.RemoveFirstStep | components/TerminalView.tsx:146 | before the first `/`, removing, splitting and cutting all keep the leading character |
| Text.RemoveFirstSplit | components/TerminalView.tsx:146 | removing the first `/` gives the text before it followed by the text after it |
| Text.ToLower | components/TerminalView.tsx:146 | lower-casing keeps the length and maps each character on its own |
| Text.NatToString | components/TerminalView.tsx:169 | decimal digits without a leading zero that denote the number |
| Text.PadStart2 | components/Header.tsx:24-25 | pads with zeros on the left to length two, keeping the original as the suffix |
| Lists.Without | components/AdvancedWipeScreen.tsx:35 | drops every copy of the item and keeps the rest in order, as a subsequence; keeps distinctness |
| Lists.WithoutCounts | components/AdvancedWipeScreen.tsx:35 | the filter keeps every other element exactly as often as it occurs and no copy of the item |
| Lists.SubsequenceTrans | components/TerminalView.tsx:51-79 | a filter of a filter keeps the original order |
| Lists.SubsequenceExtend | components/MountScreen.tsx:34 | a subsequence stays one when the longer list grows |
| Lists.SubsequenceDropLast | components/MountScreen.tsx:34 | dropping the last element of a subsequence keeps it one |
| TerminalLogs.InstallLogs | components/TerminalView.tsx:12-29 | sixteen lines; the eighth names the package |
| TerminalLogs.WipeLogs | components/TerminalView.tsx:31-38 | the fixed six lines, from `Wiping data...` to `Done.` |
| TerminalLogs.FailuresIn | components/TerminalView.tsx:154-155 | the tally counts exactly the failing draws |
| TerminalLogs.MountErrors | components/TerminalView.tsx:195-197 | three messages for a mount, two for an unmount |
| TerminalLogs.GenerateMountLogs | components/TerminalView.tsx:179-212 | the loop's log equals the mount-log specification |
| TerminalLogs.MountBodyLength | components/TerminalView.tsx:186-202 | two lines per operation |
| TerminalLogs.MountBodyLines | components/TerminalView.tsx:186-202 | two lines per operation: the action line, then the outcome of its draw |
| TerminalLogs.MountLogsShape | components/TerminalView.tsx:204-209 | `2n + 2` lines, a separator, and a summary that reports the number of failed operations; the summary is the success line iff none failed |
| TerminalLogs.MountOutcomeIsError | components/TerminalView.tsx:193-201 | an outcome line starts with `[ERROR] ` iff its draw fails |
| TerminalLogs.MountLogsEmpty | components/TerminalView.tsx:180-182 | no operations gives the two-line abort |
| TerminalLogs.PartitionOptions | components/TerminalView.tsx:51 | exactly the options that are neither special nor alpha actions |
| TerminalLogs.WipedPartitions | components/TerminalView.tsx:51-80 | the partition options, minus `Data` iff the format-method encryption removal was selected and succeeded |
| TerminalLogs.PartitionOptionsOrder | components/TerminalView.tsx:51 | the partition options keep the selection order, each partition as often as it was selected |
| TerminalLogs.WipedPartitionsOrder | components/TerminalView.tsx:51-80 | the wiped partitions keep the selection order and multiplicity; `Data` is dropped entirely iff the format-method removal was selected and succeeded |
| TerminalLogs.WipeErrors | components/TerminalView.tsx:156-160 | three error messages per partition |
| TerminalLogs.WipeStep | components/TerminalView.tsx:149-164 | four lines per wiped partition |
| TerminalLogs.ActionFailures | components/TerminalView.tsx:82-136 | at most one error per failing action, four at most |
| TerminalLogs.WipeSummary | components/TerminalView.tsx:167-174 | a separator and two summary lines; the last is `Advanced wipe process failed.` iff the count is positive, after the error tally |
| TerminalLogs.PushFormatStep | components/TerminalView.tsx:68-86 | appends the format-method section; the partitions left become the wiped partitions, without `Data` iff the step was selected and succeeded; one error iff it fails |
| TerminalLogs.PushStep | components/TerminalView.tsx:88-138 | the lines of a vendor, no-format or Treble step, and one error iff it fails |
| TerminalLogs.PushWipeStep | components/TerminalView.tsx:145-164 | appends one partition's four lines; one error iff its draw fails |
| TerminalLogs.PushWipes | components/TerminalView.tsx:145-165 | the loop appends every partition's step and counts the failing draws |
| TerminalLogs.PushSummary | components/TerminalView.tsx:167-174 | appends the summary for the error count |
| TerminalLogs.PushSpecialActions | components/TerminalView.tsx:51-86 | appends the driver and format sections, computes the partitions left to wipe, and counts a failed format |
| TerminalLogs.PushAlphaActions | components/TerminalView.tsx:88-138 | appends the vendor, no-format and Treble sections in that order, counting each failure |
| TerminalLogs.PushActions | components/TerminalView.tsx:45-138 | the action sections, the partitions left to wipe, and the number of failed actions |
| TerminalLogs.PushTail | components/TerminalView.tsx:140-174 | appends the heading iff partitions remain, their wipes and the summary of all errors |
| TerminalLogs.GenerateAdvancedWipeLogs | components/TerminalView.tsx:40-177 | the imperative generator's log equals the advanced-wipe specification |
| TerminalLogs.WipeBodyLength | components/TerminalView.tsx:145-165 | four lines per partition |
| TerminalLogs.WipeBodyLines | components/TerminalView.tsx:145-165 | four lines per partition, in partition order |
| TerminalLogs.WipeStepLines | components/TerminalView.tsx:146-164 | the step names the partition by its first word, lower-cased, with the first `/` removed; its outcome is an `[ERROR]` line iff the draw fails |
| TerminalLogs.WipeTailEnds | components/TerminalView.tsx:140-174 | the part after the actions ends with the summary of the error count |
| TerminalLogs.AdvancedWipeOutcome | components/TerminalView.tsx:45-174 | the log starts with the option list and ends with a separator and a summary; the final line is `Advanced wipe process failed.` iff the error count is positive, and the tally precedes it |
| TerminalLogs.AdvancedWipeEmpty | components/TerminalView.tsx:41-43 | no options gives the two-line abort |
| Terminal.Title | components/TerminalView.tsx:329-336 | `Terminal` iff there is no run; an install is titled with its package name, or `null`; a factory wipe `Wiping Data`, an advanced wipe `Advanced Wipe`, a mount run `Mounting Partitions` |
| Terminal.TitlesDistinct | components/TerminalView.tsx:329-336 | two different actions never show the same title, whatever the file name |
| Terminal.LogLinesInstall | components/TerminalView.tsx:229-239 | an install with a non-empty file name replays the install log for that file; without one it falls back to the factory wipe |
| Terminal.LogLinesDispatch | components/TerminalView.tsx:229-239 | a factory wipe replays the wipe log; an advanced wipe with its list replays the advanced-wipe log, and a mount run with its operations the mount log |
| Terminal.GenerateLogLines | components/TerminalView.tsx:229-239 | running the chosen generator gives exactly the specified script |
| Terminal.Words | components/TerminalView.tsx:268 | a command line always has a command word |
| Terminal.CommandOf | components/TerminalView.tsx:270-308 | a word is unknown iff it is outside the command set |
| Terminal.CommandEffects | components/TerminalView.tsx:296-304 | a command reboots, exits or clears iff its word is `reboot`, `exit` or `clear`; `clear` prints nothing |
| Terminal.UnknownCommand | components/TerminalView.tsx:307-308 | an unknown word gives exactly `sh: <cmd>: command not found` and no effect |
| Terminal.CommandWords | components/TerminalView.tsx:268 | the command word is the trimmed line up to its first space, and the arguments rejoined are the rest |
| Terminal.EchoPrintsRest | components/TerminalView.tsx:294-295 | `echo` prints the trimmed line after its first space |
| Terminal.WordsOfLine | components/TerminalView.tsx:268 | a command, a space and a text split into the command and the pieces of the text |
| Terminal.FixedReplies | components/TerminalView.tsx:267-306 | `help` prints the eight help lines, `date` prints the current time, and a blank line prints nothing, none with an effect |
| Terminal.EchoJoins | components/TerminalView.tsx:294-295 | `echo` prints its arguments joined by single spaces, with no effect |
| Terminal.EchoAlone | components/TerminalView.tsx:266-295 | `echo ` with nothing after it prints one empty line |
| Terminal.EchoText | components/TerminalView.tsx:266-295 | `echo` followed by a non-empty text that does not end in whitespace prints that text unchanged |
| Terminal.EchoRoundTrip | components/TerminalView.tsx:294-295 | `echo` followed by a text that does not end in whitespace prints that text unchanged |
| Terminal.LsArgument | components/TerminalView.tsx:282-291 | `ls /sdcard` prints the fixed listing; any other single argument is reported missing by name |
| Terminal.LsMissing | components/TerminalView.tsx:283-291 | `ls` without `/sdcard` reports its argument, or `.` when the argument is absent or empty |
| Terminal.RebootAndExit | components/TerminalView.tsx:296-301 | `reboot` and `exit` print one line and signal only their own callback |
| Terminal.Submit | components/TerminalView.tsx:312-323 | blank input leaves the history unchanged; otherwise the prompt and the output are appended; after `clear` only its prompt remains |
| Terminal.SubmitEchoesPrompt | components/TerminalView.tsx:319-323 | the prompt line sits directly before the command's output |
| Terminal.TerminalView.constructor | components/TerminalView.tsx:214-253 | without a run the view is empty and complete; otherwise the script is generated and replay starts after `Initiating process...` |
| Terminal.TerminalView.Tick | components/TerminalView.tsx:242-250 | shows the next script line, or marks the run complete once all are shown; the shown lines stay a prefix of the script |
| Terminal.RunCommand | components/TerminalView.tsx:312-326 | the new history is `Submit`'s; the field resets unless the input was blank; the effect is the command's callback |
| Terminal.TerminalView.SetInput | components/TerminalView.tsx:357-364 | once the run is complete, the field takes the typed value, and the replay invariant is kept |
| Terminal.TerminalView.HandleCommand | components/TerminalView.tsx:312-326 | once the run is complete (the form is shown only then), the history follows `Submit`; the field resets unless the input was blank; the effect is the command's callback; the replayed log and the replay invariant are untouched |
| App.BackTarget | App.tsx:83-106 | back never reaches the terminal, and it goes home iff the screen is outside the confirmation chains; the install confirmation goes back to Install, the wipe confirmation and the advanced-wipe selection to Wipe, the advanced-wipe confirmation to the selection |
| App.BackUndoesForward | App.tsx:83-106 | back after a forward step of a confirmation chain returns to where the step started, and back that does not go home retraces such a step |
| App.BackReachesHome | App.tsx:83-106 | three presses of back reach home from anywhere; two suffice except from the advanced-wipe confirmation |
| App.Rendered | App.tsx:165-166 | an unmatched screen renders as home |
| App.ShowsFooter | App.tsx:177 | the footer is shown iff the screen is not the terminal; the four confirm handlers hide it, and back, home and completion show it again (their contracts) |
| App.FooterAfterBack | App.tsx:83-106 | every screen back leads to shows the footer, and so does the home screen an unmatched screen renders as |
| App.ConfirmAdvancedWipeSelection | App.tsx:42-50 | confirming a checked list and then the confirmation hands the terminal exactly the checked items, without repeats and all among the offered checkboxes |
| App.PropsFor | App.tsx:154-161 | the terminal gets the partitions only for an advanced wipe, and the operations only for a mount |
| App.Shell.constructor | App.tsx:16-21 | home with nothing selected and no reboot |
| App.Shell.NavigateTo | App.tsx:23-25 | changes the screen only |
| App.Shell.SelectZip | App.tsx:27-30 | stores the package and asks for confirmation |
| App.Shell.ConfirmInstallAction | App.tsx:32-35 | starts an install, ignoring the backup flag; the footer is hidden while it runs |
| App.Shell.ConfirmWipeAction | App.tsx:37-40 | starts a factory wipe; the footer is hidden while it runs |
| App.Shell.SelectPartitions | App.tsx:42-45 | stores the selection and asks for confirmation |
| App.Shell.ConfirmAdvancedWipeAction | App.tsx:47-50 | starts an advanced wipe; the terminal receives the stored selection; the footer is hidden while it runs |
| App.Shell.ConfirmMountAction | App.tsx:52-56 | stores the operations and starts a mount run; the terminal receives exactly them; the footer is hidden while it runs |
| App.Shell.Reboot | App.tsx:58-60 | shows the reboot overlay and changes nothing else |
| App.Shell.RebootComplete | App.tsx:62-65 | hides the overlay and resets to home, where the footer shows |
| App.Shell.ActionComplete | App.tsx:67-73 | forgets every choice and goes home, where the footer shows |
| App.Shell.GoHome | App.tsx:75-81 | the same reset as completing an action, ending where the footer shows |
| App.Shell.GoBack | App.tsx:83-106 | moves to the back target, which shows the footer; going home resets every choice, and stepping back within a chain keeps them |
| Mount.Toggle | components/MountScreen.tsx:26-31 | flips exactly the named partition |
| Mount.ChangedAmong | components/MountScreen.tsx:33-35 | exactly the partitions whose flag differs from the initial one, in list order |
| Mount.NothingChanged | components/MountScreen.tsx:33-35 | a state that agrees with the initial one has nothing toggled |
| Mount.ToggledPartitions | components/MountScreen.tsx:33-35 | the listed partitions whose flag differs from the initial state, as a subsequence of the list |
| Mount.Changes | components/MountScreen.tsx:39-45 | one operation per toggled partition, asking for its current flag |
| Mount.ChangesFlipInitial | components/MountScreen.tsx:39-45 | every operation asks for the opposite of its partition's initial flag |
| Mount.InitiallyNothingToggled | components/MountScreen.tsx:17-24 | nothing is toggled when the screen opens |
| Mount.ToggleTwice | components/MountScreen.tsx:27-30 | two toggles of a partition restore the state |
| Mount.ToggleFlipsMembership | components/MountScreen.tsx:26-35 | a toggle moves its partition into or out of the toggled list and leaves the others' membership alone |
| Mount.MountScreen.constructor | components/MountScreen.tsx:17-23 | System, Vendor and the SD card start mounted; Data and Cache do not |
| Mount.MountScreen.HandleToggle | components/MountScreen.tsx:26-31 | the state becomes the toggled state |
| Mount.MountScreen.ConfirmEnabled | components/MountScreen.tsx:76 | confirm is enabled iff some partition differs from its initial flag |
| Selection.Toggle | components/AdvancedWipeScreen.tsx:32-38 | a checked item is removed, keeping the others in order; an unchecked one is appended; no other membership changes |
| Selection.ToggleKeepsDistinct | components/AdvancedWipeScreen.tsx:34-36 | a click never checks an item twice |
| Selection.ToggleTwice | components/BackupScreen.tsx:17-21 | two clicks restore the checked set, and the very list when the item started unchecked |
| Selection.RecheckMovesToEnd | components/BackupScreen.tsx:17-21 | unchecking and rechecking moves the item to the end |
| Selection.WithoutLastAppended | components/AdvancedWipeScreen.tsx:34-36 | removing an item just appended gives the list back |
| Selection.ToggleWithin | components/AdvancedWipeScreen.tsx:47-89 | clicks on offered items keep the list within the offer |
| Selection.AdvancedWipeScreen.constructor | components/AdvancedWipeScreen.tsx:30 | nothing is checked at first |
| Selection.AdvancedWipeScreen.HandleToggle | components/AdvancedWipeScreen.tsx:32-38 | the list becomes the toggled list, distinct and within the partitions, special and alpha options |
| Selection.AdvancedWipeScreen.Confirm | components/AdvancedWipeScreen.tsx:99-100 | disabled iff nothing is checked, otherwise passes the list in click order, without repeats and within the offered checkboxes |
| Selection.BackupScreen.constructor | components/BackupScreen.tsx:14 | System and Data are checked at first |
| Selection.BackupScreen.HandleToggle | components/BackupScreen.tsx:16-22 | the list becomes the toggled list, distinct and within System and Data |
| Selection.BackupScreen.Confirm | components/BackupScreen.tsx:49-50 | disabled iff nothing is checked, otherwise passes the list, without repeats and within System and Data |
| ChangeFs.Request | components/ChangeFileSystemScreen.tsx:29-38 | a request is sent iff a partition and an action are set; it carries a file system iff the action is a change, `repair` iff it is a repair, and the error flag as set |
| ChangeFs.ShowsConfirm | components/ChangeFileSystemScreen.tsx:120 | confirm is shown for a repair, and for a change iff a target is picked |
| ChangeFs.ChangeFsScreen.constructor | components/ChangeFileSystemScreen.tsx:18-21 | nothing picked, no forced error |
| ChangeFs.ChangeFsScreen.SelectPartition | components/ChangeFileSystemScreen.tsx:23-27 | a new partition drops the action and the target |
| ChangeFs.ChangeFsScreen.ChooseRepair | components/ChangeFileSystemScreen.tsx:56 | the action becomes a repair and the target is dropped |
| ChangeFs.ChangeFsScreen.ChooseChange | components/ChangeFileSystemScreen.tsx:62 | the action becomes a change and the target is dropped |
| ChangeFs.ChangeFsScreen.SelectFs | components/ChangeFileSystemScreen.tsx:76 | the target becomes the picked file system |
| ChangeFs.ChangeFsScreen.SetForceError | components/ChangeFileSystemScreen.tsx:92 | the error flag follows the checkbox |
| ChangeFs.ChangeFsScreen.ConfirmSends | components/ChangeFileSystemScreen.tsx:120-122 | whenever confirm is shown, pressing it sends a request matching the shown choices |
| Odin.Select | components/OdinScreen.tsx:30-32 | the slot holds its fixed package and the other slots are unchanged |
| Odin.SelectIdempotent | components/OdinScreen.tsx:32 | picking a slot again leaves the map unchanged |
| Odin.OdinScreen.constructor | components/OdinScreen.tsx:15-16 | no slot filled, empty log |
| Odin.OdinScreen.DeviceAdded | components/OdinScreen.tsx:21 | logs the device line |
| Odin.OdinScreen.DeviceChecked | components/OdinScreen.tsx:23-25 | logs the three check lines |
| Odin.OdinScreen.HandleFileSelect | components/OdinScreen.tsx:30-34 | fills the slot and logs exactly one line, even on a repeat |
| Odin.OdinScreen.CanStart | components/OdinScreen.tsx:36 | true iff some slot is filled |
| Odin.OdinScreen.Start | components/OdinScreen.tsx:88-89 | disabled iff no slot is filled, otherwise passes the slots, each holding its own package |
| Website.Classify | components/WebsiteScreen.tsx:25-31 | Active for the known login in any case, printed in lower case; otherwise Expired below five characters and Not Found from five on, echoing the login |
| Website.ActiveLogins | components/WebsiteScreen.tsx:25-27 | the known login matches iff it has nine characters that lower-case to it, so it is never short enough to count as expired |
| Website.WebsiteScreen.constructor | components/WebsiteScreen.tsx:13-15 | empty field, no result, not searching |
| Website.WebsiteScreen.SetLogin | components/WebsiteScreen.tsx:56 | the field takes the typed value |
| Website.WebsiteScreen.HandleSearch | components/WebsiteScreen.tsx:17-23 | an empty login gives the prompt message without searching; otherwise the old result is cleared and the search starts |
| Website.WebsiteScreen.SearchFinished | components/WebsiteScreen.tsx:24-33 | the result classifies the login the search started with, and searching stops |
| FileManager.SdcardFiles | components/FileManagerScreen.tsx:29 | a missing or falsy `sdcard` gives no entries; an object `sdcard` gives exactly its own entries |
| FileManager.SdcardObjectListed | components/FileManagerScreen.tsx:29-32 | for an object `sdcard` the listing names exactly its entries, each shown as a directory iff its value is an object |
| FileManager.DirectoriesCountAsDownloaded | components/FileManagerScreen.tsx:71 | a directory counts as downloaded; an empty string, zero, `null` or `undefined` does not |
| FileManager.EntryBeforePreorder | components/FileManagerScreen.tsx:30-36 | the comparator is total and transitive when the name order is |
| FileManager.Insert | components/FileManagerScreen.tsx:30-36 | inserting adds exactly the one name |
| FileManager.InsertSorted | components/FileManagerScreen.tsx:30-36 | inserting into a sorted list keeps it sorted |
| FileManager.SortByKind | components/FileManagerScreen.tsx:30-36 | the result is a permutation of the keys |
| FileManager.SortByKindSorted | components/FileManagerScreen.tsx:30-36 | the result is sorted by the comparator |
| FileManager.SortedSdcardFiles | components/FileManagerScreen.tsx:29-36 | the listing is a permutation of the SD card's keys, sorted by the comparator |
| FileManager.ListingOrder | components/FileManagerScreen.tsx:31-35 | every directory precedes every file, and names of one kind follow the name order |
| FileManager.MissingSdcardIsEmpty | components/FileManagerScreen.tsx:29 | without an SD card the listing is empty |
| Header.BatteryStep | components/Header.tsx:11-14 | a level in 1..100 stays in 1..100; a level above one drops; the result is full iff the level was at most one, or 101 |
| Header.TicksDrain | components/Header.tsx:10-15 | `k` ticks below the level drain it by `k` |
| Header.TicksRecharge | components/Header.tsx:10-15 | a level `b` is full again after exactly `b` ticks |
| Header.LeadingZero | components/Header.tsx:24-25 | padding with a zero keeps the number a digit string denotes |
| Header.TwoDigits | components/Header.tsx:24-25 | two digits that denote a number below 100 |
| Header.FormatTime | components/Header.tsx:23-27 | five characters with a colon in the middle; the halves read back as the hours and the minutes |
| Header.FormatTimeInjective | components/Header.tsx:23-27 | distinct times of day are shown differently |
| Header.StatusBar.constructor | components/Header.tsx:5-6 | the battery starts at 88 |
| Header.StatusBar.ClockTick | components/Header.tsx:9 | the clock takes the new time and the battery is untouched |
| Header.StatusBar.BatteryTick | components/Header.tsx:10-15 | the battery takes one step and stays within 1..100 |
| Header.StatusBar.Clock | components/Header.tsx:43 | the shown clock reads back as the stored time |

## Left out

- Randomness: each `Math.random()` draw is an input. A `Draw` holds whether the step fails and which error message it picks. The advanced-wipe generator takes one success flag per special or alpha action. The probabilities themselves (90 %, 85 %, 80 %, 20 %, 15 %) are not modelled.
- Timers: the replay interval, the battery and clock intervals, the Odin connection timeouts and the licence-lookup delay are each modelled as the single step they perform (`Tick`, `BatteryTick`, `ClockTick`, `DeviceAdded`, `DeviceChecked`, `SearchFinished`). When they fire, and the random replay delay, are not modelled.
- The clock: the `date` command's `new Date().toString()` is the parameter `now`. The header's current hours and minutes are parameters.
- FileManager.SortedSdcardFiles: `localeCompare` is an arbitrary total preorder passed as a parameter (`before(a, b)` standing for `a.localeCompare(b) <= 0`). No particular locale's collation is modelled. `Object.keys`' order of the entries is also a parameter.
- FileManager.SdcardFiles: a truthy `sdcard` value that is not an object counts as empty. `Object.keys` of a non-empty string would list its character positions; this is not modelled.
- Text.ToLower: `toLowerCase` is modelled on ASCII letters only. For the licence lookup this decides nothing. The only characters outside ASCII that `toLowerCase` maps into ASCII are the Kelvin sign (to `k`) and the capital I with a dot above (to `i` and a combining dot). Neither can make a string equal to `theprofgh`, which contains neither `k` nor `i`.
- Website.Classify: the length test uses the number of characters. JavaScript counts UTF-16 code units, so a login with characters outside the Basic Multilingual Plane may be classified differently.
- Trimming: the whitespace set is written out from the JavaScript definition of white space and line terminators, as code points.
- The terminal's `useEffect` re-runs when its props change mid-run; the model generates the script once, when the view is constructed.
- Rendering: JSX, styling, focus and scroll effects, the line colours of the log, and the `Process completed.` line shown after a run are not modelled.
- Website.WebsiteScreen.HandleSearch requires that no search is running, because the button is disabled while one is. The Odin START button and the checklist confirm buttons are modelled as functions returning no payload while disabled.
- The Slider component: it does floating-point arithmetic on measured DOM sizes.
- Screens that only pass a callback through or only display text are not modelled: install, wipe, reboot, Magisk, the bypass and debloat screens, the error screens, settings, login and the boot animation.
- The screen enumeration file is not part of this model. Its members are the cases `App.tsx` names, plus `Other` for any further member.
- The theme data and the rest of the constants file are not part of this model. Only the names of the offered downloads are copied.
- A virtual file system with directory creation, removal, moving and path resolution does not exist in the code, so it is not modelled.
