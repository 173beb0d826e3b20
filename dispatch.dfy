/**
 * The two entry points of the reducer (src/app/reducer.rs): `on_key`, which routes a key
 * press to the open text input, the global keys or the current screen, and `reduce`,
 * which applies one action of the closed vocabulary.
 *
 * Both keep `AppState.Valid()`, the task bookkeeping and the path uniqueness of the
 * project list. What a step may change is its method's `modifies` clause; for the
 * actions that change almost nothing, `reduce` also says that `View()` after the step
 * is the old `View()` with only those fields replaced.
 */
module Dispatch {
  import opened Wrappers
  import opened Platform
  import opened Text
  import opened State
  import opened Actions
  import opened Effects
  import opened Reducer
  import opened Keys
  import opened ScreenKeys

  // ---------------------------------------------------------------------------
  // Routing a key press
  // ---------------------------------------------------------------------------

  /** Who handles a key press. */
  datatype Route =
    | Interrupt
    | AddProjectInput
    | AddFolderInput
    | SearchInput
    | AddRepoInput
    | AddPackageInput
    | PackageSearchInput
    | NewProjectInput
    | GlobalKey
    | OnScreen(screen: Screen)

  /** Control+C. */
  predicate IsInterrupt(key: KeyEvent) {
    key.control && key.code == Char('c')
  }

  /** The keys `on_key` handles itself when no text input is open. */
  predicate IsGlobalKey(code: KeyCode) {
    code == Char('q') || code.Tab? || code.Right? || code.Left? || code.Up? || code.Down?
  }

  /**
   * The order of `on_key`: Control+C first, then the open text inputs in a fixed order,
   * then the global keys, then the current screen.
   */
  function RouteOf(v: StateView, key: KeyEvent): Route {
    if IsInterrupt(key) then Interrupt
    else if v.addProjectMode then AddProjectInput
    else if v.addFolderMode then AddFolderInput
    else if v.searchMode then SearchInput
    else if v.addRepoMode then AddRepoInput
    else if v.addPackageMode then AddPackageInput
    else if v.availablePackageSearchMode then PackageSearchInput
    else if v.newProjectMode then NewProjectInput
    else if IsGlobalKey(key.code) then GlobalKey
    else OnScreen(v.screen)
  }

  /** Some text input is open. */
  predicate Typing(v: StateView) {
    v.addProjectMode || v.addFolderMode || v.searchMode || v.addRepoMode
    || v.addPackageMode || v.availablePackageSearchMode || v.newProjectMode
  }

  /**
   * Control+C always interrupts; while a text input is open every other key goes to an
   * input, so typing `q` or Tab never quits or switches screens; with none open a key is
   * global or goes to the current screen.
   */
  lemma RouteSpec(v: StateView, key: KeyEvent)
    ensures IsInterrupt(key) <==> RouteOf(v, key) == Interrupt
    ensures !IsInterrupt(key) && Typing(v) ==> !RouteOf(v, key).GlobalKey? && !RouteOf(v, key).OnScreen?
    ensures !IsInterrupt(key) && !Typing(v) ==>
      RouteOf(v, key) == (if IsGlobalKey(key.code) then GlobalKey else OnScreen(v.screen))
  {
  }

  // ---------------------------------------------------------------------------
  // The global keys
  // ---------------------------------------------------------------------------

  /**
   * Down: one line further into the log, stopping at the last line (`u16` arithmetic:
   * the step saturates and the log length is truncated to 16 bits).
   */
  function ScrollDown(scroll: nat, logCount: nat): nat {
    var next := if scroll < U16_MAX then scroll + 1 else U16_MAX;
    if next < MaxLogScroll(logCount) then next else MaxLogScroll(logCount)
  }

  /** Down never leaves the log, moves by one line unless at the end, and Up undoes it. */
  lemma ScrollDownSpec(scroll: nat, logCount: nat)
    requires scroll <= MaxLogScroll(logCount)
    ensures ScrollDown(scroll, logCount) <= MaxLogScroll(logCount)
    ensures scroll < MaxLogScroll(logCount) ==> ScrollDown(scroll, logCount) == scroll + 1
    ensures scroll == MaxLogScroll(logCount) ==> ScrollDown(scroll, logCount) == scroll
    ensures scroll < MaxLogScroll(logCount) ==> SaturatingSub(ScrollDown(scroll, logCount), 1) == scroll
  {
    assert MaxLogScroll(logCount) <= U16_MAX;
  }

  /**
   * The global keys of `on_key`: `q` quits, Tab and Right go to the next screen, Left to
   * the previous one, Up and Down scroll the log.
   */
  twostate predicate GlobalKeyHandled(state: AppState, key: KeyEvent, effects: seq<Effect>)
    reads state
  {
    var c := key.code;
    && state.shouldQuit == (c == Char('q') || old(state.shouldQuit))
    && state.screen == (
         if c.Tab? || c.Right? then old(state.screen).Next()
         else if c.Left? then old(state.screen).Prev()
         else old(state.screen))
    && state.logScroll == (
         if c.Up? then SaturatingSub(old(state.logScroll), 1)
         else if c.Down? then ScrollDown(old(state.logScroll), |old(state.logs)|)
         else old(state.logScroll))
    && effects == []
  }

  method OnGlobalKey(state: AppState, key: KeyEvent) returns (effects: seq<Effect>)
    requires state.Valid()
    modifies state`shouldQuit, state`screen, state`logScroll
    ensures state.Valid()
    ensures GlobalKeyHandled(state, key, effects)
  {
    effects := [];
    match key.code
    case Char('q') => state.shouldQuit := true;
    case Tab => state.screen := state.screen.Next();
    case Right => state.screen := state.screen.Next();
    case Left => state.screen := state.screen.Prev();
    case Up => state.logScroll := SaturatingSub(state.logScroll, 1);
    case Down =>
      ScrollDownSpec(state.logScroll, |state.logs|);
      state.logScroll := ScrollDown(state.logScroll, |state.logs|);
    case _ =>
  }

  // ---------------------------------------------------------------------------
  // `on_key`
  // ---------------------------------------------------------------------------

  /**
   * What `on_key` does: the handler of the route the old state and the key select does
   * its part. What each handler may change is its method's `modifies` clause.
   */
  twostate predicate KeyHandled(state: AppState, key: KeyEvent, host: Host, effects: seq<Effect>)
    reads state
  {
    match RouteOf(old(state.View()), key)
    case Interrupt => state.shouldQuit && effects == []
    case AddProjectInput => AddProjectKeyHandled(state, key, host, effects)
    case AddFolderInput => AddFolderKeyHandled(state, key, effects)
    case SearchInput => SearchKeyHandled(state, key, effects)
    case AddRepoInput => AddRepoKeyHandled(state, key, effects)
    case AddPackageInput => AddPackageKeyHandled(state, key, effects)
    case PackageSearchInput => PackageSearchKeyHandled(state, key, effects)
    case NewProjectInput => NewProjectKeyHandled(state, key, host, effects)
    case GlobalKey => GlobalKeyHandled(state, key, effects)
    case OnScreen(New) => NewKeyHandled(state, key, effects)
    case OnScreen(Add) => AddKeyHandled(state, key, effects)
    case OnScreen(Projects) => ProjectsKeyHandled(state, key, effects)
    case OnScreen(Manage) => ManageKeyHandled(state, key, effects)
    case OnScreen(Settings) => SettingsKeyHandled(state, key, effects)
  }

  /** The invariants every key press keeps. */
  twostate predicate KeyKeeps(state: AppState, effects: seq<Effect>)
    reads state
  {
    && Bookkept(old(state.tasks), old(state.nextTaskId), state.tasks, state.nextTaskId, effects)
    && (UniquePaths(old(state.projects)) ==> UniquePaths(state.projects))
  }

  /** Control+C: quit. */
  method Interrupted(state: AppState, key: KeyEvent, host: Host) returns (effects: seq<Effect>)
    requires state.Valid() && RouteOf(state.View(), key) == Interrupt
    modifies state`shouldQuit
    ensures state.Valid() && KeyHandled(state, key, host, effects) && KeyKeeps(state, effects)
  {
    state.shouldQuit := true;
    effects := [];
    BookkeptUntouched(state.tasks, state.nextTaskId, effects);
  }

  method RouteAddProjectInput(state: AppState, key: KeyEvent, host: Host) returns (effects: seq<Effect>)
    requires state.Valid() && RouteOf(state.View(), key) == AddProjectInput
    modifies state`addProjectMode, state`addProjectInput, state`statusLine, state`projects, state`selectedProject
    ensures state.Valid() && KeyHandled(state, key, host, effects) && KeyKeeps(state, effects)
  {
    effects := OnAddProjectInput(state, key, host);
    BookkeptUntouched(state.tasks, state.nextTaskId, effects);
  }

  method RouteAddFolderInput(state: AppState, key: KeyEvent, host: Host) returns (effects: seq<Effect>)
    requires state.Valid() && RouteOf(state.View(), key) == AddFolderInput
    modifies state`addFolderMode, state`addFolderInput, state`statusLine
    ensures state.Valid() && KeyHandled(state, key, host, effects) && KeyKeeps(state, effects)
  {
    effects := OnAddFolderInput(state, key);
    BookkeptUntouched(state.tasks, state.nextTaskId, effects);
  }

  method RouteSearchInput(state: AppState, key: KeyEvent, host: Host) returns (effects: seq<Effect>)
    requires state.Valid() && RouteOf(state.View(), key) == SearchInput
    modifies state`searchMode, state`searchQuery
    ensures state.Valid() && KeyHandled(state, key, host, effects) && KeyKeeps(state, effects)
  {
    effects := OnSearchInput(state, key);
    BookkeptUntouched(state.tasks, state.nextTaskId, effects);
  }

  method RouteAddRepoInput(state: AppState, key: KeyEvent, host: Host) returns (effects: seq<Effect>)
    requires state.Valid() && RouteOf(state.View(), key) == AddRepoInput
    modifies state`addRepoMode, state`addRepoInput, state`statusLine, state`nextTaskId, state`tasks, state`logs
    ensures state.Valid() && KeyHandled(state, key, host, effects) && KeyKeeps(state, effects)
  {
    effects := OnAddRepoInput(state, key);
  }

  method RouteAddPackageInput(state: AppState, key: KeyEvent, host: Host) returns (effects: seq<Effect>)
    requires state.Valid() && RouteOf(state.View(), key) == AddPackageInput
    modifies state`addPackageMode, state`addPackageInput, state`statusLine, state`nextTaskId, state`tasks, state`logs
    ensures state.Valid() && KeyHandled(state, key, host, effects) && KeyKeeps(state, effects)
  {
    effects := OnAddPackageInput(state, key);
  }

  method RoutePackageSearchInput(state: AppState, key: KeyEvent, host: Host) returns (effects: seq<Effect>)
    requires state.Valid() && RouteOf(state.View(), key) == PackageSearchInput
    modifies state`availablePackageSearchMode, state`availablePackageSearch, state`selectedAvailablePackage
    ensures state.Valid() && KeyHandled(state, key, host, effects) && KeyKeeps(state, effects)
  {
    effects := OnAvailablePackageSearchInput(state, key);
    BookkeptUntouched(state.tasks, state.nextTaskId, effects);
  }

  method RouteNewProjectInput(state: AppState, key: KeyEvent, host: Host) returns (effects: seq<Effect>)
    requires state.Valid() && RouteOf(state.View(), key) == NewProjectInput
    modifies state`newProjectMode, state`newProjectEditPath, state`newProjectNameInput, state`newProjectPathInput,
             state`screen, state`statusLine, state`nextTaskId, state`tasks, state`logs
    ensures state.Valid() && KeyHandled(state, key, host, effects) && KeyKeeps(state, effects)
  {
    effects := OnNewProjectInput(state, key, host);
  }

  method RouteGlobalKey(state: AppState, key: KeyEvent, host: Host) returns (effects: seq<Effect>)
    requires state.Valid() && RouteOf(state.View(), key) == GlobalKey
    modifies state`shouldQuit, state`screen, state`logScroll
    ensures state.Valid() && KeyHandled(state, key, host, effects) && KeyKeeps(state, effects)
  {
    effects := OnGlobalKey(state, key);
    BookkeptUntouched(state.tasks, state.nextTaskId, effects);
  }

  method RouteNewScreen(state: AppState, key: KeyEvent, host: Host) returns (effects: seq<Effect>)
    requires state.Valid() && RouteOf(state.View(), key) == OnScreen(New)
    modifies state`newProjectTemplateIdx, state`newProjectMode, state`newProjectEditPath
    ensures state.Valid() && KeyHandled(state, key, host, effects) && KeyKeeps(state, effects)
  {
    effects := OnNewKey(state, key);
    BookkeptUntouched(state.tasks, state.nextTaskId, effects);
  }

  method RouteAddScreen(state: AppState, key: KeyEvent, host: Host) returns (effects: seq<Effect>)
    requires state.Valid() && RouteOf(state.View(), key) == OnScreen(Add)
    modifies state`addProjectMode, state`addProjectInput, state`addFolderMode, state`addFolderInput
    ensures state.Valid() && KeyHandled(state, key, host, effects) && KeyKeeps(state, effects)
  {
    effects := OnAddKey(state, key);
    BookkeptUntouched(state.tasks, state.nextTaskId, effects);
  }

  method RouteProjectsScreen(state: AppState, key: KeyEvent, host: Host) returns (effects: seq<Effect>)
    requires state.Valid() && RouteOf(state.View(), key) == OnScreen(Projects)
    modifies state`searchMode, state`screen, state`selectedProject
    ensures state.Valid() && KeyHandled(state, key, host, effects) && KeyKeeps(state, effects)
  {
    effects := OnProjectsKey(state, key);
    BookkeptUntouched(state.tasks, state.nextTaskId, effects);
  }

  method RouteManageScreen(state: AppState, key: KeyEvent, host: Host) returns (effects: seq<Effect>)
    requires state.Valid() && RouteOf(state.View(), key) == OnScreen(Manage)
    modifies state`availablePackageSearchMode, state`manageFocusAvailable, state`addPackageMode, state`addPackageInput,
             state`selectedAvailablePackage, state`selectedManifestPackage, state`statusLine, state`nextTaskId, state`tasks, state`logs
    ensures state.Valid() && KeyHandled(state, key, host, effects) && KeyKeeps(state, effects)
  {
    effects := OnManageKey(state, key);
  }

  method RouteSettingsScreen(state: AppState, key: KeyEvent, host: Host) returns (effects: seq<Effect>)
    requires state.Valid() && RouteOf(state.View(), key) == OnScreen(Settings)
    modifies state`addRepoMode, state`addRepoInput, state`statusLine, state`nextTaskId, state`tasks, state`logs
    ensures state.Valid() && KeyHandled(state, key, host, effects) && KeyKeeps(state, effects)
  {
    effects := OnSettingsKey(state, key);
  }

  /** `on_key`. */
  method OnKey(state: AppState, key: KeyEvent, host: Host) returns (effects: seq<Effect>)
    requires state.Valid()
    modifies state`shouldQuit, state`screen, state`logScroll, state`searchMode, state`searchQuery
    modifies state`addProjectMode, state`addProjectInput, state`addFolderMode, state`addFolderInput
    modifies state`newProjectMode, state`newProjectEditPath, state`newProjectNameInput, state`newProjectPathInput
    modifies state`newProjectTemplateIdx, state`addRepoMode, state`addRepoInput, state`addPackageMode, state`addPackageInput
    modifies state`availablePackageSearchMode, state`availablePackageSearch, state`selectedAvailablePackage
    modifies state`selectedManifestPackage, state`manageFocusAvailable
    modifies state`projects, state`selectedProject, state`statusLine, state`nextTaskId, state`tasks, state`logs
    ensures state.Valid()
    ensures KeyHandled(state, key, host, effects)
    ensures KeyKeeps(state, effects)
  {
    match RouteOf(state.View(), key)
    case Interrupt => effects := Interrupted(state, key, host);
    case AddProjectInput => effects := RouteAddProjectInput(state, key, host);
    case AddFolderInput => effects := RouteAddFolderInput(state, key, host);
    case SearchInput => effects := RouteSearchInput(state, key, host);
    case AddRepoInput => effects := RouteAddRepoInput(state, key, host);
    case AddPackageInput => effects := RouteAddPackageInput(state, key, host);
    case PackageSearchInput => effects := RoutePackageSearchInput(state, key, host);
    case NewProjectInput => effects := RouteNewProjectInput(state, key, host);
    case GlobalKey => effects := RouteGlobalKey(state, key, host);
    case OnScreen(New) => effects := RouteNewScreen(state, key, host);
    case OnScreen(Add) => effects := RouteAddScreen(state, key, host);
    case OnScreen(Projects) => effects := RouteProjectsScreen(state, key, host);
    case OnScreen(Manage) => effects := RouteManageScreen(state, key, host);
    case OnScreen(Settings) => effects := RouteSettingsScreen(state, key, host);
  }

  // ---------------------------------------------------------------------------
  // `reduce`
  // ---------------------------------------------------------------------------

  /**
   * The invariants every action keeps: the task books, and the path uniqueness of the
   * project list, which a loaded config replaces wholesale and so keeps only when it is
   * itself duplicate-free.
   */
  twostate predicate ReduceKeeps(state: AppState, action: Action, effects: seq<Effect>)
    reads state
  {
    && Bookkept(old(state.tasks), old(state.nextTaskId), state.tasks, state.nextTaskId, effects)
    && (if action.ConfigLoaded? && action.config.Ok?
        then UniquePaths(action.config.value.projects) ==> UniquePaths(state.projects)
        else UniquePaths(old(state.projects)) ==> UniquePaths(state.projects))
  }

  /**
   * What `reduce` promises beyond the arms' own contracts: a key press is `on_key`, and
   * the no-op actions change nothing else. A tick only counts; a saved config changes
   * nothing; a `TaskDone` for an id no task has only sets the status line and logs it.
   */
  twostate predicate Reduced(state: AppState, action: Action, host: Host, effects: seq<Effect>)
    reads state
  {
    var v := old(state.View());
    match action
    case Tick =>
      && state.View() == v.(tickCount := if v.tickCount < U64_MAX then v.tickCount + 1 else v.tickCount)
      && effects == []
    case ConfigSaved(saved) =>
      saved.Ok? ==> state.View() == v && effects == []
    case TaskDone(id, success, cancelled, _, _) =>
      FindTask(v.tasks, id).None? ==>
        && state.View() == v.(statusLine := DoneStatus(id, success, cancelled),
                              logs := KeepLast(v.logs + [LogEntry(Some(id), StatusEcho(DoneStatus(id, success, cancelled)))],
                                               MAX_LOG_LINES))
        && effects == []
    case Key(key) => KeyHandled(state, key, host, effects)
    case _ => true
  }

  method StepInit(state: AppState, action: Action, host: Host) returns (effects: seq<Effect>)
    requires state.Valid() && action.Init?
    modifies state
    ensures state.Valid() && ReduceKeeps(state, action, effects) && Reduced(state, action, host, effects)
  {
    effects := ReduceInit(state);
  }

  method StepTick(state: AppState, action: Action, host: Host) returns (effects: seq<Effect>)
    requires state.Valid() && action.Tick?
    modifies state`tickCount
    ensures state.Valid() && ReduceKeeps(state, action, effects) && Reduced(state, action, host, effects)
  {
    effects := ReduceTick(state);
    BookkeptUntouched(state.tasks, state.nextTaskId, effects);
  }

  method StepKey(state: AppState, action: Action, host: Host) returns (effects: seq<Effect>)
    requires state.Valid() && action.Key?
    modifies state
    ensures state.Valid() && ReduceKeeps(state, action, effects) && Reduced(state, action, host, effects)
  {
    effects := OnKey(state, action.key, host);
  }

  method StepConfigLoaded(state: AppState, action: Action, host: Host) returns (effects: seq<Effect>)
    requires state.Valid() && action.ConfigLoaded?
    modifies state
    ensures state.Valid() && ReduceKeeps(state, action, effects) && Reduced(state, action, host, effects)
  {
    effects := ReduceConfigLoaded(state, action.config, host);
    BookkeptUntouched(state.tasks, state.nextTaskId, effects);
  }

  method StepConfigSaved(state: AppState, action: Action, host: Host) returns (effects: seq<Effect>)
    requires state.Valid() && action.ConfigSaved?
    modifies state`statusLine, state`logs
    ensures state.Valid() && ReduceKeeps(state, action, effects) && Reduced(state, action, host, effects)
  {
    effects := ReduceConfigSaved(state, action.saved);
    BookkeptUntouched(state.tasks, state.nextTaskId, effects);
  }

  method StepFolderScanned(state: AppState, action: Action, host: Host) returns (effects: seq<Effect>)
    requires state.Valid() && action.FolderScanned?
    modifies state
    ensures state.Valid() && ReduceKeeps(state, action, effects) && Reduced(state, action, host, effects)
  {
    effects := ReduceFolderScanned(state, action.scan, host);
    BookkeptUntouched(state.tasks, state.nextTaskId, effects);
  }

  method StepAvailablePackagesLoaded(state: AppState, action: Action, host: Host) returns (effects: seq<Effect>)
    requires state.Valid() && action.AvailablePackagesLoaded?
    modifies state
    ensures state.Valid() && ReduceKeeps(state, action, effects) && Reduced(state, action, host, effects)
  {
    effects := ReduceAvailablePackagesLoaded(state, action.packages);
    BookkeptUntouched(state.tasks, state.nextTaskId, effects);
  }

  method StepManifestLoaded(state: AppState, action: Action, host: Host) returns (effects: seq<Effect>)
    requires state.Valid() && action.ManifestLoaded?
    modifies state
    ensures state.Valid() && ReduceKeeps(state, action, effects) && Reduced(state, action, host, effects)
  {
    effects := ReduceManifestLoaded(state, action.manifest);
    BookkeptUntouched(state.tasks, state.nextTaskId, effects);
  }

  method StepTaskOutput(state: AppState, action: Action, host: Host) returns (effects: seq<Effect>)
    requires state.Valid() && action.TaskOutput?
    modifies state
    ensures state.Valid() && ReduceKeeps(state, action, effects) && Reduced(state, action, host, effects)
  {
    effects := ReduceTaskOutput(state, action.taskId, action.stream, action.line);
    BookkeptUntouched(state.tasks, state.nextTaskId, effects);
  }

  method StepKnownTaskDone(state: AppState, action: Action, host: Host) returns (effects: seq<Effect>)
    requires state.Valid() && action.TaskDone? && FindTask(state.tasks, action.taskId).Some?
    modifies state
    ensures state.Valid() && ReduceKeeps(state, action, effects) && Reduced(state, action, host, effects)
  {
    effects := ReduceTaskDone(state, action.taskId, action.success, action.cancelled, action.exitCode, action.error, host);
  }

  method StepUnknownTaskDone(state: AppState, action: Action, host: Host) returns (effects: seq<Effect>)
    requires state.Valid() && action.TaskDone? && FindTask(state.tasks, action.taskId).None?
    modifies state`logs, state`statusLine
    ensures state.Valid() && ReduceKeeps(state, action, effects) && Reduced(state, action, host, effects)
  {
    effects := ReduceUnknownTaskDone(state, action.taskId, action.success, action.cancelled);
    BookkeptUntouched(state.tasks, state.nextTaskId, effects);
  }

  method StepTaskDone(state: AppState, action: Action, host: Host) returns (effects: seq<Effect>)
    requires state.Valid() && action.TaskDone?
    modifies state
    ensures state.Valid() && ReduceKeeps(state, action, effects) && Reduced(state, action, host, effects)
  {
    if FindTask(state.tasks, action.taskId).Some? {
      effects := StepKnownTaskDone(state, action, host);
    } else {
      effects := StepUnknownTaskDone(state, action, host);
    }
  }

  /** `reduce`: one action, its effects, and the invariants every step keeps. */
  method Reduce(state: AppState, action: Action, host: Host) returns (effects: seq<Effect>)
    requires state.Valid()
    modifies state
    ensures state.Valid()
    ensures ReduceKeeps(state, action, effects)
    ensures Reduced(state, action, host, effects)
  {
    match action
    case Init => effects := StepInit(state, action, host);
    case Tick => effects := StepTick(state, action, host);
    case Key(_) => effects := StepKey(state, action, host);
    case ConfigLoaded(_) => effects := StepConfigLoaded(state, action, host);
    case ConfigSaved(_) => effects := StepConfigSaved(state, action, host);
    case FolderScanned(_) => effects := StepFolderScanned(state, action, host);
    case AvailablePackagesLoaded(_) => effects := StepAvailablePackagesLoaded(state, action, host);
    case ManifestLoaded(_) => effects := StepManifestLoaded(state, action, host);
    case TaskOutput(_, _, _) => effects := StepTaskOutput(state, action, host);
    case TaskDone(_, _, _, _, _) => effects := StepTaskDone(state, action, host);
  }
}
