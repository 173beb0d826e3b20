# Creator Companion TUI: the reducer, modelled in Dafny

Creator Companion TUI is a terminal dashboard for VRChat Creator Companion projects. It
drives the `vpm` command-line tool (and `dotnet`, which installs `vpm`). Every change to the
dashboard's state goes through one function, `reduce(&mut AppState, Action) -> Vec<Effect>`.
That function takes one action: a key press, a clock tick, or the result of a config load,
a folder scan, a package list, a manifest read, or a task's output or completion. It updates
the state in place and returns the effects (file loads and saves, commands to launch, tasks
to cancel) for the executor to perform.

This project models that reducer and the application state it updates:

- `state.dfy` (module `State`) models `src/app/state.rs`.
  - The records are datatypes: screens, projects, packages, manifests, task records, log
    entries, system checks.
  - `AppState` is a class with all 33 fields of the Rust struct and its small methods: the
    bounded log, the three selection clamps, the filtered views and the selection accessors.
  - `AppState.Valid()` is the state invariant every step keeps:
    - each selection is inside its list;
    - the log holds at most 1500 lines and the scroll stays inside it;
    - the template index is 0, 1 or 2;
    - the counters stay inside `u64`.
- `actions.dfy` and `effects.dfy` model the closed vocabularies `Action` and `Effect`.
- `reducer.dfy` (module `Reducer`) models:
  - the task registry: `enqueue_*_task` and the task bookkeeping;
  - every action arm of `reduce` except the key press.
- `keys.dfy` (module `Keys`) and `screens.dfy` (module `ScreenKeys`) model the key handlers:
  - `Keys` has the text-input modes;
  - `ScreenKeys` has the per-screen keys and the Manage and Settings commands.
- `dispatch.dfy` (module `Dispatch`) models `on_key`'s routing and `reduce` itself.
- `platform.dfy`, `text.dfy` and `wrappers.dfy` are support modules:
  - the host's file system, given as oracles;
  - the string operations the reducer uses;
  - `Option` and `Result`.

Every handler is a method on the `AppState` object.
- Its `modifies` clause names exactly the fields the Rust function assigns.
- Its postcondition states the new value of each of those fields and the effects returned.
- It keeps `Valid()`.
- It keeps the task bookkeeping:
  - records are never removed and keep their id and title;
  - every `RunCommand` effect is matched by exactly one freshly appended `Running` record carrying its id;
  - with room below the top of `u64`, task ids stay strictly increasing and below `next_task_id`.

On top of that:
- the project list never gains a duplicate path, except from a loaded config that already had one;
- the log is a FIFO of the newest 1500 lines;
- the search views are exactly the matching items, in order.

## Model

| member | source | states |
|---|---|---|
| State.SaturatingAdd | src/app/reducer.rs:18-21 | `saturating_add` on an unsigned integer type: the exact sum when it fits, otherwise the largest value; never above it |
| State.SaturatingSub | src/app/reducer.rs:295-298 | `saturating_sub`: the exact difference when it is not negative, otherwise 0; never above the minuend |
| State.NextPrevInverse | src/app/state.rs:14-32 | `Screen::next` and `Screen::prev` undo each other |
| State.NextCycle | src/app/state.rs:14-22 | the five screens form one Tab cycle: five steps return to the start, fewer never do |
| State.AdvanceModFive | src/app/state.rs:14-22 | `k` presses of Tab land on the same screen as `k % 5` presses |
| State.AppendFreshPathKeepsUnique | src/app/reducer.rs:342-380 | appending a project whose path is not tracked keeps the project paths pairwise distinct |
| State.KeepLast | src/app/state.rs:199-209 | the kept tail has length `min(|s|, n)` |
| State.KeepLastSuffix | src/app/state.rs:205-208 | what `push_log`'s drain removes is a prefix: the kept lines are a suffix of the log |
| State.PushedLogBounded | src/app/state.rs:199-209 | after `push_log` the log has at most 1500 lines and its last line is the one pushed |
| State.PushedLogEvictsOldest | src/app/state.rs:199-209 | below the cap nothing is evicted; at the cap exactly the oldest line is dropped |
| State.PushedAllKeepsNewest | src/app/state.rs:199-209 | pushing any number of lines one by one leaves exactly the newest 1500 of old and new lines, in order |
| State.PushedTwice | src/app/state.rs:199-209 | two pushes in a row equal pushing both lines at once |
| State.KeepLastOfKeepLast | src/app/state.rs:205-208 | truncating before appending does not change the newest `n` lines of the result |
| State.Clamp | src/app/state.rs:215-221 | the clamped index is usable for the list: unchanged when in range; the last index when past the end; 0 for an empty list |
| State.ClampIdempotent | src/app/state.rs:215-234 | clamping twice is clamping once, and a usable selection is left untouched |
| State.MaxLogScrollMonotone | src/app/reducer.rs:299-303 | within the `u16` range the Down bound is `len - 1` (0 for an empty log) and grows with the log |
| State.FreshIdsDistinct | src/app/reducer.rs:1024-1052 | strictly increasing task ids are pairwise distinct, so an id names at most one record |
| State.AppendNextIdKeepsFresh | src/app/reducer.rs:1024-1052 | appending a record with the next id and moving the counter past it keeps ids fresh |
| State.AppState.constructor | src/app/state.rs:142-179 | `AppState::default()`: every field's default; the state is valid, with fresh ids and unique paths |
| State.AppState.PushLog | src/app/state.rs:199-209 | the log becomes the newest 1500 lines of the old log plus the new line; a valid state stays valid |
| State.AppState.SelectedProject | src/app/state.rs:211-213 | `Some` of the selected project exactly when the index is inside the (unfiltered) project list |
| State.AppState.SelectedProjectClamped | src/app/state.rs:215-221 | the project selection becomes `Clamp` of the old one; nothing else changes |
| State.AppState.SelectedManifestPackageClamped | src/app/state.rs:223-234 | the manifest selection becomes `Clamp` of the old one for the loaded manifest's length (0 without one) |
| State.AppState.SelectedManifestPackage | src/app/state.rs:236-240 | `Some` exactly when a manifest is loaded and the index is inside its package list |
| State.AppState.SelectedAvailablePackageClamped | src/app/state.rs:257-264 | the package selection becomes `Clamp` of the old one for the length of the filtered view |
| State.AppState.SelectedAvailablePackage | src/app/state.rs:266-270 | `Some` exactly when the index is inside the filtered package view, and then that item |
| State.AppState.CurrentTemplate | src/app/state.rs:272-278 | Avatar for 0, World for 1, UdonSharp for every other index |
| State.ProjectsMatchingSpec | src/app/state.rs:188-196 | the project filter keeps the order and keeps only matching projects |
| State.ProjectsMatchingCounts | src/app/state.rs:188-196 | the project filter drops no matching project: each one appears as often as in the list |
| State.PackagesMatchingSpec | src/app/state.rs:246-254 | the package filter keeps the order and keeps only matching packages |
| State.PackagesMatchingCounts | src/app/state.rs:246-254 | the package filter drops no matching package: each one appears as often as in the list |
| State.ProjectViewSpec | src/app/state.rs:183-197 | `filtered_projects`: an empty query gives the whole list; otherwise an order-preserving sub-list holding exactly the projects whose name, path or a tag contains the lower-cased query |
| State.PackageViewSpec | src/app/state.rs:242-255 | `filtered_available_packages`: the same for packages, matched by id, display name or repo id |
| State.SelectionsNeverDangle | src/app/state.rs:211-270 | in a valid state a non-empty list always yields its selected item |
| Text.TrimStartSpec | src/app/reducer.rs:343 | the kept text starts with no whitespace and only whitespace was dropped before it |
| Text.TrimEndSpec | src/app/reducer.rs:343 | the kept text ends with no whitespace and only whitespace was dropped after it |
| Text.TrimSpec | src/app/reducer.rs:343 | `str::trim`: the result occurs in the input, framed by whitespace only, and neither starts nor ends with whitespace |
| Text.PopChar | src/app/reducer.rs:318-320 | `String::pop`: an empty text stays empty; otherwise the result plus the old last character is the old text |
| Text.Lowercase | src/app/state.rs:188 | same length; each character lower-cased |
| Text.NatToString | src/app/reducer.rs:1109-1111 | the decimal text of a number is never empty |
| Text.IntToString | src/app/reducer.rs:1109-1111 | the text of the exit code is never empty |
| Reducer.FindTask | src/app/reducer.rs:161-170 | `find(t.id == id)`: the position of the first record with that id, and `None` exactly when no record has it |
| Reducer.FindTaskUnique | src/app/reducer.rs:161-170 | with fresh ids, the record `find` returns is the only one with that id |
| Reducer.LastRunning | src/app/reducer.rs:818-828 | `rev().find(Running)`: the last running record; `None` exactly when none is running |
| Reducer.TaskIsLabel | src/app/reducer.rs:1093-1100 | true only when a record with the id carries the title; with distinct ids, exactly then |
| Reducer.TerminalState | src/app/reducer.rs:161-170 | a finished task is never left `Running`; cancelled exactly when cancelled; success exactly when not cancelled and successful |
| Reducer.DoneStatus | src/app/reducer.rs:236-244 | the status line names the task and reads cancelled / done / failed under exactly those conditions |
| Reducer.TaskStateText | src/app/reducer.rs:1102-1115 | one text per state, telling the four apart; a failure with an error reads `failed: <error>` |
| Reducer.Launches | src/app/reducer.rs:1024-1052 | one (id, title) pair per task record, in order |
| Reducer.AdmittedCompose | src/app/reducer.rs:10-17 | two admission steps in a row, as in `Init`'s two probes, make one admission step |
| Reducer.BookkeptUntouched | src/app/reducer.rs:10-248 | a step that launches nothing and leaves the tasks alone keeps the books |
| Reducer.LaunchBookkept | src/app/reducer.rs:1024-1052 | appending the launched record keeps the books, and keeps ids fresh below the top of `u64` |
| Reducer.EnqueueCommandTask | src/app/reducer.rs:1024-1052 | one `RunCommand` under the old counter; one `Running` record with that id appended; counter saturating-incremented; start logged and shown; books kept |
| Reducer.EnqueueProjectTask | src/app/reducer.rs:1054-1062 | the same launch, for a `vpm` command with the given manifest refresh and pending project |
| Reducer.EnqueueSystemTask | src/app/reducer.rs:1064-1076 | the same launch, for a `vpm` command with no follow-up |
| Reducer.EnqueueDotnetTask | src/app/reducer.rs:1078-1091 | the same launch, for a `dotnet` command with no follow-up |
| Reducer.ReduceInit | src/app/reducer.rs:12-17 | effects are config load, package load and the two version probes under consecutive ids; both records appended; both starts logged; books kept |
| Reducer.InitBookkeeping | src/app/reducer.rs:12-17 | `Init`'s two launches together keep the books |
| Reducer.ReduceTick | src/app/reducer.rs:18-21 | the tick counter saturating-increments and nothing is returned |
| Reducer.ExistingProjectsComplete | src/app/reducer.rs:25-31 | each kept project exists, and the kept list is an order-preserving sub-list of the loaded one |
| Reducer.ExistingProjectsCounts | src/app/reducer.rs:25-31 | each existing project is kept as often as it was listed; no missing ones are kept |
| Reducer.ExistingProjectsKeepsUnique | src/app/reducer.rs:25-31 | pruning missing projects keeps paths unique |
| Reducer.ReduceConfigLoaded | src/app/reducer.rs:23-60 | Ok: projects become the existing ones; selection clamped; count shown; a prune is logged and saved; selected manifest read. Err: projects kept, failure logged and shown |
| Reducer.ReplaceProjects | src/app/reducer.rs:30-33 | the project list is replaced and the selection clamped to it |
| Reducer.AdoptLoadedConfig | src/app/reducer.rs:25-53 | the `Ok` arm alone, with its prune count, save and manifest read |
| Reducer.ReduceConfigSaved | src/app/reducer.rs:61-67 | a successful save changes nothing; a failed one logs the error and reports it |
| Reducer.TrackProject | src/app/reducer.rs:362-371 | the project is appended and selected; a fresh path keeps paths unique |
| Reducer.DisplayNameFor | src/app/reducer.rs:74-79 | a project's display name is its last path component, or the whole path when it has none; a nonempty path never gets an empty name |
| Reducer.MergeScannedPrefix | src/app/reducer.rs:68-92 | the folder scan only appends: the old list is a prefix of the new one |
| Reducer.MergeScannedAddsScanned | src/app/reducer.rs:68-92 | every appended record is the record for a scanned path that was not tracked before |
| Reducer.MergeScannedCovers | src/app/reducer.rs:68-92 | after the scan every scanned path is tracked |
| Reducer.MergeScannedKeepsUnique | src/app/reducer.rs:68-92 | the scan keeps paths unique, even when the scan itself repeats a path |
| Reducer.AddScannedProjects | src/app/reducer.rs:70-88 | the loop: the new list is the merged list, and `added` is the number of appended records |
| Reducer.AdoptScannedFolder | src/app/reducer.rs:69-90 | merged list, added count and clamped selection; paths stay unique |
| Reducer.ReduceFolderScanned | src/app/reducer.rs:68-99 | Ok: paths merged, selection clamped, count shown, list saved. Err: projects kept, failure logged and shown |
| Reducer.ReduceAvailablePackagesLoaded | src/app/reducer.rs:100-116 | Ok: package list replaced, selection clamped to the filtered view, count shown. Err: logged and shown |
| Reducer.ReduceManifestLoaded | src/app/reducer.rs:117-130 | Ok: manifest shown and its selection clamped. Err: manifest dropped, selection reset, error logged |
| Reducer.ChecksAfterOutput | src/app/reducer.rs:131-150 | only stdout of the `vpm --version` / `dotnet --version` task sets that version; the other checks are untouched |
| Reducer.ReduceTaskOutput | src/app/reducer.rs:131-150 | the line is logged under its task with its stream prefix, and the version checks are updated |
| Reducer.Completed | src/app/reducer.rs:161-170 | the completed record keeps its id, title and follow-ups, and is no longer running |
| Reducer.TasksAfterDoneSpec | src/app/reducer.rs:161-170 | only the record with the id changes; length, ids and titles are kept; with fresh ids ids stay fresh; an unknown id changes nothing |
| Reducer.TaskLogTexts | src/app/reducer.rs:185-191 | at most as many lines as the log holds |
| Reducer.TaskLogTextsSpec | src/app/reducer.rs:185-191 | a text is collected exactly when some log line filed under the task's id carries it |
| Reducer.TaskLogTextsInOrder | src/app/reducer.rs:185-191 | the collected lines keep their log order: they are a sub-list of the log's texts |
| Reducer.TaskLogTextsCounts | src/app/reducer.rs:185-191 | each text is collected as many times as the log holds a line with the task's id and that text, duplicates included |
| Reducer.ChecksAfterDoneSpec | src/app/reducer.rs:172-192 | only the check named by the title changes: failed probes mark the tool "not installed"; hub/Unity checks record the state text; `vpm list unity` collects its lines |
| Reducer.NotCreated | src/app/reducer.rs:202-219 | a warning is deferred exactly when a successful task's pending project path does not exist |
| Reducer.FoundEffectsSpec | src/app/reducer.rs:193-223 | no launches; packages reloaded exactly after `vpm add repo`; config saved exactly when the project is adopted; manifest read exactly for a refresh path |
| Reducer.AdoptPendingProject | src/app/reducer.rs:202-219 | when the pending project exists and is new: appended, selected, saved. Otherwise projects kept. The warning is deferred as `NotCreated` says |
| Reducer.RecordChecksAfterDone | src/app/reducer.rs:172-192 | the system checks become `ChecksAfterDone` of the completed record |
| Reducer.CompleteRecord | src/app/reducer.rs:161-192 | the record at the position becomes `Completed`, and the checks are updated for it |
| Reducer.CollectFollowUps | src/app/reducer.rs:193-223 | the follow-up effects are `FoundEffects`; projects, selection and deferred warning as the adoption says |
| Reducer.ResolveTask | src/app/reducer.rs:161-223 | record completed, checks updated, follow-ups collected, pending project adopted; paths stay unique |
| Reducer.DoneLinesPushed | src/app/reducer.rs:225-244 | pushing the warning, the re-check start and the status echo one by one equals pushing them together |
| Reducer.PushDeferred | src/app/reducer.rs:225-227 | the deferred warning, if any, is logged under the task |
| Reducer.RecheckVpm | src/app/reducer.rs:196-201 | after a successful `vpm` install or update, `vpm --version` is launched again; otherwise nothing changes; books kept |
| Reducer.FinishTaskDone | src/app/reducer.rs:225-244 | warning logged, re-check launched if due, completion shown and echoed to the log; books kept |
| Reducer.CompletionBookkept | src/app/reducer.rs:151-246 | completing a record and then launching keeps the books |
| Reducer.ReduceFoundTaskDone | src/app/reducer.rs:151-246 | a known id: the whole completion, with effects in source order; books and path uniqueness kept |
| Reducer.ReduceUnknownTaskDone | src/app/reducer.rs:236-244 | an unknown id: only the status line and one log line change, and nothing is returned |
| Reducer.ReduceTaskDone | src/app/reducer.rs:151-246 | `Action::TaskDone` in both cases, with books and path uniqueness kept |
| Keys.TypedThenErased | src/app/reducer.rs:314-329 | typing a character and then Backspace gives back the text |
| Keys.EditedSpec | src/app/reducer.rs:314-329 | only Backspace and plain characters edit: one character appended, or the last one removed |
| Keys.OnSearchInput | src/app/reducer.rs:314-329 | Esc and Enter leave search mode; other keys edit the query; the project selection is kept |
| Keys.SubmitProjectInput | src/app/reducer.rs:342-380 | empty trimmed input: reported. Tracked path: reported, mode left. Otherwise the project is appended, selected and saved, and its manifest read |
| Keys.OnAddProjectInput | src/app/reducer.rs:331-389 | Esc clears and leaves; Enter submits; other keys edit the input |
| Keys.OnAddFolderInput | src/app/reducer.rs:391-422 | Esc clears and leaves; Enter on a non-empty trimmed root leaves and requests the scan, on an empty one reports it; other keys edit |
| Keys.SubmitRepoInput | src/app/reducer.rs:435-450 | empty trimmed URL: reported. Otherwise the mode is left and `vpm add repo <url>` launched, books kept |
| Keys.OnAddRepoInput | src/app/reducer.rs:424-459 | Esc clears and leaves; Enter submits; other keys edit |
| Keys.SubmitPackageInput | src/app/reducer.rs:472-500 | empty trimmed name: reported. No project: reported. Otherwise the mode is left and `vpm add package` launched on the project with a manifest refresh |
| Keys.OnAddPackageInput | src/app/reducer.rs:461-509 | Esc clears and leaves; Enter submits; other keys edit |
| Keys.OnAvailablePackageSearchInput | src/app/reducer.rs:511-531 | Esc and Enter leave; an edit of the search re-clamps the package selection to the new filtered view |
| Keys.CloseNewProjectForm | src/app/reducer.rs:568-571 | the form closes after a submitted `vpm new`: the mode is left, both inputs are cleared and the Projects screen is shown |
| Keys.SubmitNewProject | src/app/reducer.rs:551-580 | empty trimmed name or path: reported. Otherwise `vpm new <name> <template> -p <path>` launched, adopting the project when done |
| Keys.LaunchNewProject | src/app/reducer.rs:558-580 | the launch itself: the command, its pending project and manifest refresh, the form closed, the Projects screen shown |
| Keys.EditNewProjectForm | src/app/reducer.rs:533-550 | Esc closes the form; Tab switches field; Backspace and characters edit the field in focus |
| Keys.OnNewProjectInput | src/app/reducer.rs:533-593 | Enter submits the form; every other key edits it |
| ScreenKeys.StepDownSpec | src/app/reducer.rs:597-600 | `j` keeps a usable selection usable, never goes back, moves by one unless at the end, and equals clamping the next index |
| ScreenKeys.StepUpSpec | src/app/reducer.rs:601-604 | `k` keeps a usable selection usable, never goes forward, and undoes `j` |
| ScreenKeys.OnNewKey | src/app/reducer.rs:595-612 | `j`/`k` choose the template; `n` opens the form on its name field |
| ScreenKeys.OnAddKey | src/app/reducer.rs:614-628 | `a` opens the emptied add-project input; `f` opens the emptied add-folder input |
| ScreenKeys.ProjectsStepDownAsWrittenGoesBack | src/app/reducer.rs:640-646 | as written, with a search active, `j` can move the project selection backwards (see Findings) |
| ScreenKeys.ProjectsStepDownAsWrittenSpec | src/app/reducer.rs:640-646 | `j` as written keeps a usable selection usable, leaves it alone when nothing matches, and without a search is the plain step down the list |
| ScreenKeys.OnProjectsKey | src/app/reducer.rs:630-662 | `/` opens search; `a` goes to Add; `j` steps down bounded by the filtered list's length, as written; `k` steps up; Enter goes to Manage and reads the selected manifest |
| ScreenKeys.HasPackage | src/app/reducer.rs:923-967 | `any(p.name == name)`: true exactly when some package has that name |
| ScreenKeys.SdkPackage | src/app/reducer.rs:923-967 | the avatars SDK if the manifest has it, else the worlds SDK if it has that, else none; a named SDK is always in the manifest |
| ScreenKeys.InstallSelectedAvailablePackage | src/app/reducer.rs:833-860 | refused without a project or package; otherwise `vpm add package <id>` launched on the project; books kept |
| ScreenKeys.RemoveSelectedAvailablePackage | src/app/reducer.rs:862-895 | refused without a project or package; otherwise `vpm remove package <id>` launched; books kept |
| ScreenKeys.UpdateSelectedInstalledPackage | src/app/reducer.rs:897-921 | refused without a project or installed package; otherwise it is added again; books kept |
| ScreenKeys.UpdateVrchatSdkPackage | src/app/reducer.rs:923-967 | refused without a project, manifest or SDK package; otherwise the SDK is added again; books kept |
| ScreenKeys.ResolveSelectedProject | src/app/reducer.rs:969-986 | refused without a project; otherwise `vpm resolve project` launched; books kept |
| ScreenKeys.RemoveSelectedPackage | src/app/reducer.rs:988-1022 | refused without a project or installed package; otherwise `vpm remove package <name>` launched, forced for `D`; books kept |
| ScreenKeys.MoveManageSelection | src/app/reducer.rs:692-720 | `j`/`k` move only the focused list's selection, inside that list |
| ScreenKeys.BrowseManage | src/app/reducer.rs:664-720 | `r` reads the manifest, `R` reloads packages, `/` searches, `h`/`l` focus, `i` opens the add-package input, `j`/`k` move |
| ScreenKeys.CommandManage | src/app/reducer.rs:721-729 | each command key runs its command; books kept |
| ScreenKeys.OnManageKey | src/app/reducer.rs:664-731 | command keys leave the browsing fields alone; browsing keys launch nothing |
| ScreenKeys.CancelLatest | src/app/reducer.rs:818-828 | at most one `CancelTask`, for the last running record; none exactly when nothing is running |
| ScreenKeys.RunSettingsCommand | src/app/reducer.rs:736-781 | a direct `vpm` settings key launches its command; books kept |
| ScreenKeys.RunDotnetCommand | src/app/reducer.rs:792-817 | `i`/`p` are refused when the probe found no `dotnet`; otherwise the `dotnet tool` command is launched |
| ScreenKeys.SettingsOtherKey | src/app/reducer.rs:782-831 | `a` opens the emptied add-repo input; `c` cancels the latest running task and leaves the task list alone; other keys do nothing |
| ScreenKeys.OnSettingsKey | src/app/reducer.rs:733-831 | `on_settings_key` for every key, with books kept |
| Dispatch.RouteSpec | src/app/reducer.rs:250-312 | Control+C always interrupts; an open input takes every other key, so `q` or Tab never quits or switches screens; otherwise a key is global or goes to the screen |
| Dispatch.ScrollDownSpec | src/app/reducer.rs:295-303 | Down never leaves the log, moves one line unless at the end, and Up undoes it |
| Dispatch.OnGlobalKey | src/app/reducer.rs:278-304 | `q` quits; Tab/Right go to the next screen and Left to the previous; Up/Down scroll the log |
| Dispatch.Interrupted | src/app/reducer.rs:251-254 | Control+C sets the quit flag and returns nothing |
| Dispatch.RouteAddProjectInput | src/app/reducer.rs:256-258 | add-project mode takes the key |
| Dispatch.RouteAddFolderInput | src/app/reducer.rs:259-261 | add-folder mode takes the key |
| Dispatch.RouteSearchInput | src/app/reducer.rs:262-264 | search mode takes the key |
| Dispatch.RouteAddRepoInput | src/app/reducer.rs:265-267 | add-repo mode takes the key |
| Dispatch.RouteAddPackageInput | src/app/reducer.rs:268-270 | add-package mode takes the key |
| Dispatch.RoutePackageSearchInput | src/app/reducer.rs:271-273 | package-search mode takes the key |
| Dispatch.RouteNewProjectInput | src/app/reducer.rs:274-276 | new-project mode takes the key |
| Dispatch.RouteGlobalKey | src/app/reducer.rs:278-304 | a global key is handled by `on_key` itself |
| Dispatch.RouteNewScreen | src/app/reducer.rs:305-311 | the New screen takes the key |
| Dispatch.RouteAddScreen | src/app/reducer.rs:305-311 | the Add screen takes the key |
| Dispatch.RouteProjectsScreen | src/app/reducer.rs:305-311 | the Projects screen takes the key |
| Dispatch.RouteManageScreen | src/app/reducer.rs:305-311 | the Manage screen takes the key |
| Dispatch.RouteSettingsScreen | src/app/reducer.rs:305-311 | the Settings screen takes the key |
| Dispatch.OnKey | src/app/reducer.rs:250-312 | the routed handler does its part; the state stays valid; books kept; paths stay unique |
| Dispatch.StepInit | src/app/reducer.rs:12-17 | `reduce` on `Init` |
| Dispatch.StepTick | src/app/reducer.rs:18-21 | `reduce` on `Tick`: only the tick counter changes |
| Dispatch.StepKey | src/app/reducer.rs:22 | `reduce` on a key is `on_key` |
| Dispatch.StepConfigLoaded | src/app/reducer.rs:23-60 | `reduce` on `ConfigLoaded`; paths stay unique when the loaded list had unique paths |
| Dispatch.StepConfigSaved | src/app/reducer.rs:61-67 | `reduce` on `ConfigSaved`: a successful save changes nothing |
| Dispatch.StepFolderScanned | src/app/reducer.rs:68-99 | `reduce` on `FolderScanned` |
| Dispatch.StepAvailablePackagesLoaded | src/app/reducer.rs:100-116 | `reduce` on `AvailablePackagesLoaded` |
| Dispatch.StepManifestLoaded | src/app/reducer.rs:117-130 | `reduce` on `ManifestLoaded` |
| Dispatch.StepTaskOutput | src/app/reducer.rs:131-150 | `reduce` on `TaskOutput` |
| Dispatch.StepKnownTaskDone | src/app/reducer.rs:151-246 | `reduce` on `TaskDone` for a recorded id |
| Dispatch.StepUnknownTaskDone | src/app/reducer.rs:236-244 | `reduce` on `TaskDone` for an unknown id: only the status line and one log line change |
| Dispatch.StepTaskDone | src/app/reducer.rs:151-246 | `reduce` on `TaskDone` |
| Dispatch.Reduce | src/app/reducer.rs:10-248 | every action keeps the state valid and the books; paths stay unique (for a loaded config, when it had unique paths); a key is `on_key`; no-op actions change nothing else |

## Left out

- I/O and the executor are not part of this model (`src/main.rs`, `src/services`, `src/events`, `src/ui`): effects are values the reducer returns, and their execution is not modelled.
- Status-line and log-line texts built with `format!` are datatypes (`Status`, `LogText`), not strings. Only task titles and `vpm`/`dotnet` arguments, which the reducer compares or passes on, are real strings.
- Path operations are oracles of `Platform.Host`: `Path::exists`, `Path::file_name` and `Path::join`. Paths are compared by their text; `to_string_lossy` is the identity.
- Text.Lowercase: lower-cases the ASCII letters only, while Rust's `to_lowercase` covers all of Unicode.
- Text.NatToString and Text.IntToString state only that the text is nonempty, not that it is the decimal numeral.
- Key modifiers other than Control are not modelled: `KeyEvent` is a key code and a Control flag, the only modifier the reducer tests.
- Reducer.TasksAfterDoneSpec, Reducer.LaunchBookkept and Reducer.EnqueueCommandTask: task-id freshness is claimed only while the counter is below `u64::MAX`. At the top, `saturating_add` issues the same id twice, just as the Rust code does.
- Dispatch.Reduce: for `Init`, `ConfigLoaded`, `FolderScanned`, `AvailablePackagesLoaded`, `ManifestLoaded`, `TaskOutput` and a known `TaskDone`, it states only the invariants. The full effect of those arms is the contract of the matching `Reducer.Reduce*` method, which `Reduce` calls.
- Dispatch.OnKey: which fields a key may change is stated by the `modifies` clauses of the handlers, not by an `ensures` clause.
- Config and manifest (de)serialisation and the on-disk layout of `ProjectMeta` are not part of this model. Loaded configs, manifests and package lists arrive as values in the actions.

## Findings

| source | as written | input that shows it | evidently intended | confidence | as-written member | corrected member |
|---|---|---|---|---|---|---|
| src/app/reducer.rs:640-646 | `j` on the Projects screen bounds `selected_project`, an index into the whole project list (`selected_project()` is `projects.get(..)`), by the length of the filtered list | projects `a`, `b`, `b2`, search `a`, selection 2 (`b2`): the filtered list has one entry, so `j` sets the selection to 0 and jumps back to `a` | one reading: `j` never moves backwards, `min(selected + 1, projects.len() - 1)`; that step can select a project the search hides (the list view then highlights its first row), so keeping the selection an index into the filtered list is another | not executed | ScreenKeys.ProjectsStepDownAsWrittenGoesBack | ScreenKeys.StepDownSpec |

The model follows the code as written: `ScreenKeys.OnProjectsKey` (and with it `Dispatch.OnKey` and `Dispatch.Reduce`) uses `ScreenKeys.ProjectsStepDownAsWritten`. `ScreenKeys.ProjectsStepDownAsWrittenGoesBack` shows it moving backwards on the input above. The step down the whole list, `StepDown(selected, |projects|)`, is proved by `ScreenKeys.StepDownSpec` to keep the selection inside the list and never go backwards. `ScreenKeys.ProjectsStepDownAsWrittenSpec` proves the two steps agree when no search is active.
