/**
 * The key handlers of the reducer (src/app/reducer.rs, `on_key` and below): a key press
 * goes to the first text-input mode that is on, or else is a global key, or else goes
 * to the handler of the current screen.
 *
 * Each handler states its whole effect on the fields its frame names, keeps
 * `AppState.Valid()`, and either launches nothing or launches through
 * `EnqueueCommandTask`, so the task bookkeeping of the reducer carries over.
 */
module Keys {
  import opened Wrappers
  import opened Platform
  import opened Text
  import opened State
  import opened Actions
  import opened Effects
  import opened Reducer

  // ---------------------------------------------------------------------------
  // Editing a text input
  // ---------------------------------------------------------------------------

  /**
   * What a key does to the text of an input field: Backspace drops the last
   * character, a character typed without Control is appended, anything else keeps it.
   */
  function Edited(s: string, key: KeyEvent): string {
    match key.code
    case Backspace => PopChar(s)
    case Char(c) => if key.control then s else s + [c]
    case _ => s
  }

  /** Typing a character and then Backspace gives back the text. */
  lemma TypedThenErased(s: string, c: char, control: bool)
    ensures Edited(Edited(s, KeyEvent(Char(c), false)), KeyEvent(Backspace, control)) == s
  {
    assert (s + [c])[..|s|] == s;
  }

  /**
   * Only Backspace and plain characters change the text: one character more, or one
   * (the last) less, or none when the text was empty already.
   */
  lemma EditedSpec(s: string, key: KeyEvent)
    ensures var r := Edited(s, key);
      && (key.code.Char? && !key.control ==> |r| == |s| + 1 && r[..|s|] == s && r[|s|] == key.code.c)
      && (key.code.Backspace? && s != [] ==> r + [s[|s| - 1]] == s)
      && (key.code.Backspace? && s == [] ==> r == [])
      && (!key.code.Backspace? && !(key.code.Char? && !key.control) ==> r == s)
  {
  }

  // ---------------------------------------------------------------------------
  // The search input of the Projects screen
  // ---------------------------------------------------------------------------

  /** `on_search_input`: Esc and Enter leave the mode; the query is edited in place. */
  twostate predicate SearchKeyHandled(state: AppState, key: KeyEvent, effects: seq<Effect>)
    reads state
  {
    && state.searchMode == (old(state.searchMode) && !key.code.Esc? && !key.code.Enter?)
    && state.searchQuery == Edited(old(state.searchQuery), key)
    && effects == []
  }

  /** `on_search_input`. */
  method OnSearchInput(state: AppState, key: KeyEvent) returns (effects: seq<Effect>)
    requires state.Valid()
    modifies state`searchMode, state`searchQuery
    ensures state.Valid()
    ensures SearchKeyHandled(state, key, effects)
  {
    effects := [];
    match key.code
    case Esc => state.searchMode := false;
    case Enter => state.searchMode := false;
    case Backspace => state.searchQuery := PopChar(state.searchQuery);
    case Char(c) =>
      if !key.control {
        state.searchQuery := state.searchQuery + [c];
      }
    case _ =>
  }

  // ---------------------------------------------------------------------------
  // Add one project by path
  // ---------------------------------------------------------------------------

  /**
   * The three outcomes of Enter in add-project mode, for the trimmed input `t`:
   * an empty `t` only reports it; a tracked path is reported and the mode is left;
   * otherwise the project is appended, selected, saved and its manifest read.
   */
  twostate predicate ProjectInputSubmitted(state: AppState, host: Host, effects: seq<Effect>)
    reads state
  {
    var t := Trim(old(state.addProjectInput));
    var path := Path(t);
    if t == [] then
      && state.statusLine == ProjectPathEmpty
      && state.addProjectMode == old(state.addProjectMode)
      && state.addProjectInput == old(state.addProjectInput)
      && state.projects == old(state.projects)
      && state.selectedProject == old(state.selectedProject)
      && effects == []
    else if HasPath(old(state.projects), path) then
      && state.statusLine == ProjectAlreadyExists
      && !state.addProjectMode && state.addProjectInput == []
      && state.projects == old(state.projects)
      && state.selectedProject == old(state.selectedProject)
      && effects == []
    else
      && state.statusLine == ProjectAdded
      && !state.addProjectMode && state.addProjectInput == []
      && state.projects == old(state.projects) + [ScannedProject(path, host)]
      && state.selectedProject == |old(state.projects)|
      && effects == [SaveConfig(AppConfig(state.projects)), ReadManifest(path)]
  }

  /** Enter in add-project mode. */
  method SubmitProjectInput(state: AppState, host: Host) returns (effects: seq<Effect>)
    requires state.Valid()
    modifies state`addProjectMode, state`addProjectInput, state`statusLine, state`projects, state`selectedProject
    ensures state.Valid()
    ensures ProjectInputSubmitted(state, host, effects)
    ensures UniquePaths(old(state.projects)) ==> UniquePaths(state.projects)
    ensures LaunchesNothing(effects)
  {
    var t := Trim(state.addProjectInput);
    var path := Path(t);
    if t == [] {
      state.statusLine := ProjectPathEmpty;
      effects := [];
    } else if HasPath(state.projects, path) {
      state.statusLine := ProjectAlreadyExists;
      state.addProjectMode := false;
      state.addProjectInput := [];
      effects := [];
    } else {
      TrackProject(state, ScannedProject(path, host));
      state.addProjectMode := false;
      state.addProjectInput := [];
      state.statusLine := ProjectAdded;
      effects := [SaveConfig(AppConfig(state.projects)), ReadManifest(path)];
    }
  }

  /** `on_add_project_input`: Esc leaves the mode and clears the input; Enter submits it. */
  twostate predicate AddProjectKeyHandled(state: AppState, key: KeyEvent, host: Host, effects: seq<Effect>)
    reads state
  {
    if key.code.Enter? then ProjectInputSubmitted(state, host, effects)
    else
      && state.addProjectMode == (old(state.addProjectMode) && !key.code.Esc?)
      && state.addProjectInput == (if key.code.Esc? then [] else Edited(old(state.addProjectInput), key))
      && state.statusLine == old(state.statusLine)
      && state.projects == old(state.projects)
      && state.selectedProject == old(state.selectedProject)
      && effects == []
  }

  /** `on_add_project_input`. */
  method OnAddProjectInput(state: AppState, key: KeyEvent, host: Host) returns (effects: seq<Effect>)
    requires state.Valid()
    modifies state`addProjectMode, state`addProjectInput, state`statusLine, state`projects, state`selectedProject
    ensures state.Valid()
    ensures AddProjectKeyHandled(state, key, host, effects)
    ensures UniquePaths(old(state.projects)) ==> UniquePaths(state.projects)
    ensures LaunchesNothing(effects)
  {
    if key.code.Enter? {
      effects := SubmitProjectInput(state, host);
    } else {
      effects := [];
      match key.code
      case Esc =>
        state.addProjectMode := false;
        state.addProjectInput := [];
      case Backspace => state.addProjectInput := PopChar(state.addProjectInput);
      case Char(c) =>
        if !key.control {
          state.addProjectInput := state.addProjectInput + [c];
        }
      case _ =>
    }
  }

  // ---------------------------------------------------------------------------
  // Scan a folder for projects
  // ---------------------------------------------------------------------------

  /**
   * The two outcomes of Enter in add-folder mode, for the trimmed input `root`: an
   * empty one only reports it; otherwise the mode is left and the scan of `root` requested.
   */
  twostate predicate FolderInputSubmitted(state: AppState, effects: seq<Effect>)
    reads state
  {
    var root := Trim(old(state.addFolderInput));
    if root == [] then
      && state.statusLine == FolderPathEmpty
      && state.addFolderMode == old(state.addFolderMode)
      && state.addFolderInput == old(state.addFolderInput)
      && effects == []
    else
      && state.statusLine == old(state.statusLine)
      && !state.addFolderMode && state.addFolderInput == []
      && effects == [ScanProjectsFolder(Path(root))]
  }

  /** `on_add_folder_input`: Esc leaves the mode and clears the input; Enter submits it. */
  twostate predicate AddFolderKeyHandled(state: AppState, key: KeyEvent, effects: seq<Effect>)
    reads state
  {
    if key.code.Enter? then FolderInputSubmitted(state, effects)
    else
      && state.addFolderMode == (old(state.addFolderMode) && !key.code.Esc?)
      && state.addFolderInput == (if key.code.Esc? then [] else Edited(old(state.addFolderInput), key))
      && state.statusLine == old(state.statusLine)
      && effects == []
  }

  /** `on_add_folder_input`. */
  method OnAddFolderInput(state: AppState, key: KeyEvent) returns (effects: seq<Effect>)
    requires state.Valid()
    modifies state`addFolderMode, state`addFolderInput, state`statusLine
    ensures state.Valid()
    ensures AddFolderKeyHandled(state, key, effects)
    ensures LaunchesNothing(effects)
  {
    effects := [];
    if key.code.Enter? {
      var root := Trim(state.addFolderInput);
      if root == [] {
        state.statusLine := FolderPathEmpty;
      } else {
        state.addFolderMode := false;
        state.addFolderInput := [];
        effects := [ScanProjectsFolder(Path(root))];
      }
    } else {
      match key.code
      case Esc =>
        state.addFolderMode := false;
        state.addFolderInput := [];
      case Backspace => state.addFolderInput := PopChar(state.addFolderInput);
      case Char(c) =>
        if !key.control {
          state.addFolderInput := state.addFolderInput + [c];
        }
      case _ =>
    }
  }

  // ---------------------------------------------------------------------------
  // Add a package repository
  // ---------------------------------------------------------------------------

  /**
   * The two outcomes of Enter in add-repo mode, for the trimmed URL `repo`: an empty
   * one only reports it; otherwise the mode is left and `vpm add repo <repo>` launched.
   */
  twostate predicate RepoInputSubmitted(state: AppState, effects: seq<Effect>)
    reads state
  {
    var repo := Trim(old(state.addRepoInput));
    if repo == [] then
      && state.statusLine == RepoUrlEmpty
      && state.addRepoMode == old(state.addRepoMode)
      && state.addRepoInput == old(state.addRepoInput)
      && state.tasks == old(state.tasks) && state.nextTaskId == old(state.nextTaskId)
      && state.logs == old(state.logs)
      && effects == []
    else
      && !state.addRepoMode && state.addRepoInput == []
      && Launched(state, effects, "vpm add repo " + repo, "vpm", ["add", "repo", repo], None, None)
  }

  /** Enter in add-repo mode. */
  method SubmitRepoInput(state: AppState) returns (effects: seq<Effect>)
    requires state.Valid()
    modifies state`addRepoMode, state`addRepoInput, state`statusLine, state`nextTaskId, state`tasks, state`logs
    ensures state.Valid()
    ensures RepoInputSubmitted(state, effects)
    ensures Bookkept(old(state.tasks), old(state.nextTaskId), state.tasks, state.nextTaskId, effects)
  {
    var repo := Trim(state.addRepoInput);
    if repo == [] {
      state.statusLine := RepoUrlEmpty;
      effects := [];
      BookkeptUntouched(state.tasks, state.nextTaskId, effects);
    } else {
      state.addRepoMode := false;
      state.addRepoInput := [];
      var effect := EnqueueProjectTask(state, "vpm add repo " + repo, ["add", "repo", repo], None, None);
      effects := [effect];
    }
  }

  /** `on_add_repo_input`: Esc leaves the mode and clears the input; Enter submits it. */
  twostate predicate AddRepoKeyHandled(state: AppState, key: KeyEvent, effects: seq<Effect>)
    reads state
  {
    if key.code.Enter? then RepoInputSubmitted(state, effects)
    else
      && state.addRepoMode == (old(state.addRepoMode) && !key.code.Esc?)
      && state.addRepoInput == (if key.code.Esc? then [] else Edited(old(state.addRepoInput), key))
      && state.statusLine == old(state.statusLine)
      && state.tasks == old(state.tasks) && state.nextTaskId == old(state.nextTaskId)
      && state.logs == old(state.logs)
      && effects == []
  }

  /** `on_add_repo_input`. */
  method OnAddRepoInput(state: AppState, key: KeyEvent) returns (effects: seq<Effect>)
    requires state.Valid()
    modifies state`addRepoMode, state`addRepoInput, state`statusLine, state`nextTaskId, state`tasks, state`logs
    ensures state.Valid()
    ensures AddRepoKeyHandled(state, key, effects)
    ensures Bookkept(old(state.tasks), old(state.nextTaskId), state.tasks, state.nextTaskId, effects)
  {
    if key.code.Enter? {
      effects := SubmitRepoInput(state);
    } else {
      effects := [];
      BookkeptUntouched(state.tasks, state.nextTaskId, effects);
      match key.code
      case Esc =>
        state.addRepoMode := false;
        state.addRepoInput := [];
      case Backspace => state.addRepoInput := PopChar(state.addRepoInput);
      case Char(c) =>
        if !key.control {
          state.addRepoInput := state.addRepoInput + [c];
        }
      case _ =>
    }
  }

  // ---------------------------------------------------------------------------
  // Add a package to the selected project
  // ---------------------------------------------------------------------------

  /**
   * The three outcomes of Enter in add-package mode, for the trimmed name `pkg`: an
   * empty one only reports it; with a project selected the mode is left and
   * `vpm add package <pkg>` launched on it, re-reading its manifest afterwards;
   * without one only that is reported.
   */
  twostate predicate PackageInputSubmitted(state: AppState, effects: seq<Effect>)
    reads state
  {
    var pkg := Trim(old(state.addPackageInput));
    var selected := old(state.SelectedProject());
    if pkg != [] && selected.Some? then
      var path := selected.value.path;
      && !state.addPackageMode && state.addPackageInput == []
      && Launched(state, effects, "vpm add package " + pkg, "vpm", ["add", "package", pkg, "-p", path.text], Some(path), None)
    else
      && state.statusLine == (if pkg == [] then PackageNameEmpty else NoProjectSelected)
      && state.addPackageMode == old(state.addPackageMode)
      && state.addPackageInput == old(state.addPackageInput)
      && state.tasks == old(state.tasks) && state.nextTaskId == old(state.nextTaskId)
      && state.logs == old(state.logs)
      && effects == []
  }

  /** Enter in add-package mode. */
  method SubmitPackageInput(state: AppState) returns (effects: seq<Effect>)
    requires state.Valid()
    modifies state`addPackageMode, state`addPackageInput, state`statusLine, state`nextTaskId, state`tasks, state`logs
    ensures state.Valid()
    ensures PackageInputSubmitted(state, effects)
    ensures Bookkept(old(state.tasks), old(state.nextTaskId), state.tasks, state.nextTaskId, effects)
  {
    var pkg := Trim(state.addPackageInput);
    var selected := state.SelectedProject();
    if pkg == [] {
      state.statusLine := PackageNameEmpty;
      effects := [];
      BookkeptUntouched(state.tasks, state.nextTaskId, effects);
    } else if selected.None? {
      state.statusLine := NoProjectSelected;
      effects := [];
      BookkeptUntouched(state.tasks, state.nextTaskId, effects);
    } else {
      var path := selected.value.path;
      state.addPackageMode := false;
      state.addPackageInput := [];
      var effect := EnqueueProjectTask(state, "vpm add package " + pkg, ["add", "package", pkg, "-p", path.text], Some(path), None);
      effects := [effect];
    }
  }

  /** `on_add_package_input`: Esc leaves the mode and clears the input; Enter submits it. */
  twostate predicate AddPackageKeyHandled(state: AppState, key: KeyEvent, effects: seq<Effect>)
    reads state
  {
    if key.code.Enter? then PackageInputSubmitted(state, effects)
    else
      && state.addPackageMode == (old(state.addPackageMode) && !key.code.Esc?)
      && state.addPackageInput == (if key.code.Esc? then [] else Edited(old(state.addPackageInput), key))
      && state.statusLine == old(state.statusLine)
      && state.tasks == old(state.tasks) && state.nextTaskId == old(state.nextTaskId)
      && state.logs == old(state.logs)
      && effects == []
  }

  /** `on_add_package_input`. */
  method OnAddPackageInput(state: AppState, key: KeyEvent) returns (effects: seq<Effect>)
    requires state.Valid()
    modifies state`addPackageMode, state`addPackageInput, state`statusLine, state`nextTaskId, state`tasks, state`logs
    ensures state.Valid()
    ensures AddPackageKeyHandled(state, key, effects)
    ensures Bookkept(old(state.tasks), old(state.nextTaskId), state.tasks, state.nextTaskId, effects)
  {
    if key.code.Enter? {
      effects := SubmitPackageInput(state);
    } else {
      effects := [];
      BookkeptUntouched(state.tasks, state.nextTaskId, effects);
      match key.code
      case Esc =>
        state.addPackageMode := false;
        state.addPackageInput := [];
      case Backspace => state.addPackageInput := PopChar(state.addPackageInput);
      case Char(c) =>
        if !key.control {
          state.addPackageInput := state.addPackageInput + [c];
        }
      case _ =>
    }
  }

  // ---------------------------------------------------------------------------
  // The search input of the Manage screen's package list
  // ---------------------------------------------------------------------------

  /**
   * `on_available_package_search_input`: Esc and Enter leave the mode; an edit of the
   * search re-clamps the package selection against the new filtered view.
   */
  twostate predicate PackageSearchKeyHandled(state: AppState, key: KeyEvent, effects: seq<Effect>)
    reads state
  {
    var edits := key.code.Backspace? || (key.code.Char? && !key.control);
    && state.availablePackageSearchMode == (old(state.availablePackageSearchMode) && !key.code.Esc? && !key.code.Enter?)
    && state.availablePackageSearch == Edited(old(state.availablePackageSearch), key)
    && state.selectedAvailablePackage == (
         if edits then Clamp(old(state.selectedAvailablePackage), |state.FilteredAvailablePackages()|)
         else old(state.selectedAvailablePackage))
    && effects == []
  }

  /** `on_available_package_search_input`. */
  method OnAvailablePackageSearchInput(state: AppState, key: KeyEvent) returns (effects: seq<Effect>)
    requires state.Valid()
    modifies state`availablePackageSearchMode, state`availablePackageSearch, state`selectedAvailablePackage
    ensures state.Valid()
    ensures PackageSearchKeyHandled(state, key, effects)
  {
    effects := [];
    match key.code
    case Esc => state.availablePackageSearchMode := false;
    case Enter => state.availablePackageSearchMode := false;
    case Backspace =>
      state.availablePackageSearch := PopChar(state.availablePackageSearch);
      state.SelectedAvailablePackageClamped();
    case Char(c) =>
      if !key.control {
        state.availablePackageSearch := state.availablePackageSearch + [c];
        state.SelectedAvailablePackageClamped();
      }
    case _ =>
  }

  // ---------------------------------------------------------------------------
  // Create a new project
  // ---------------------------------------------------------------------------

  /**
   * The two outcomes of Enter in new-project mode, for the trimmed `name` and `path`:
   * if either is empty only that is reported; otherwise the mode is left, the inputs
   * cleared, the Projects screen shown, and `vpm new` launched with the current
   * template, to re-read the new project's manifest and adopt it at `path`/`name`
   * when it completes.
   */
  twostate predicate NewProjectSubmitted(state: AppState, host: Host, effects: seq<Effect>)
    reads state
  {
    var name := Trim(old(state.newProjectNameInput));
    var path := Trim(old(state.newProjectPathInput));
    if name == [] || path == [] then
      && state.statusLine == ProjectNameOrPathRequired
      && state.newProjectMode == old(state.newProjectMode)
      && state.newProjectNameInput == old(state.newProjectNameInput)
      && state.newProjectPathInput == old(state.newProjectPathInput)
      && state.screen == old(state.screen)
      && state.tasks == old(state.tasks) && state.nextTaskId == old(state.nextTaskId)
      && state.logs == old(state.logs)
      && effects == []
    else
      var template := old(state.CurrentTemplate());
      var root := host.join(Path(path), name);
      && !state.newProjectMode && state.newProjectNameInput == [] && state.newProjectPathInput == []
      && state.screen == Projects
      && Launched(state, effects, "vpm new " + name + " " + template + " -p " + path, "vpm",
                  ["new", name, template, "-p", path], Some(root), Some(ProjectMeta(root, name, [], None)))
  }

  /** Leave new-project mode: clear both inputs and show the Projects screen. */
  method CloseNewProjectForm(state: AppState)
    requires state.Valid()
    modifies state`newProjectMode, state`newProjectNameInput, state`newProjectPathInput, state`screen
    ensures state.Valid()
    ensures !state.newProjectMode && state.newProjectNameInput == [] && state.newProjectPathInput == []
    ensures state.screen == Projects
  {
    state.newProjectMode := false;
    state.newProjectNameInput := [];
    state.newProjectPathInput := [];
    state.screen := Projects;
  }

  /** Enter in new-project mode. */
  method SubmitNewProject(state: AppState, host: Host) returns (effects: seq<Effect>)
    requires state.Valid()
    modifies state`newProjectMode, state`newProjectNameInput, state`newProjectPathInput, state`screen
    modifies state`statusLine, state`nextTaskId, state`tasks, state`logs
    ensures state.Valid()
    ensures NewProjectSubmitted(state, host, effects)
    ensures Bookkept(old(state.tasks), old(state.nextTaskId), state.tasks, state.nextTaskId, effects)
  {
    var name := Trim(state.newProjectNameInput);
    var path := Trim(state.newProjectPathInput);
    if name == [] || path == [] {
      state.statusLine := ProjectNameOrPathRequired;
      effects := [];
      BookkeptUntouched(state.tasks, state.nextTaskId, effects);
    } else {
      effects := LaunchNewProject(state, host, name, path);
    }
  }

  /** Enter in new-project mode with a name and a path: leave the mode and launch `vpm new`. */
  method LaunchNewProject(state: AppState, host: Host, name: string, path: string) returns (effects: seq<Effect>)
    requires state.Valid()
    modifies state`newProjectMode, state`newProjectNameInput, state`newProjectPathInput, state`screen
    modifies state`statusLine, state`nextTaskId, state`tasks, state`logs
    ensures state.Valid()
    ensures var template := old(state.CurrentTemplate());
      var root := host.join(Path(path), name);
      && !state.newProjectMode && state.newProjectNameInput == [] && state.newProjectPathInput == []
      && state.screen == Projects
      && Launched(state, effects, "vpm new " + name + " " + template + " -p " + path, "vpm",
                  ["new", name, template, "-p", path], Some(root), Some(ProjectMeta(root, name, [], None)))
    ensures Bookkept(old(state.tasks), old(state.nextTaskId), state.tasks, state.nextTaskId, effects)
  {
    var template := state.CurrentTemplate();
    var root := host.join(Path(path), name);
    CloseNewProjectForm(state);
    var effect := EnqueueProjectTask(state, "vpm new " + name + " " + template + " -p " + path,
                                     ["new", name, template, "-p", path], Some(root), Some(ProjectMeta(root, name, [], None)));
    effects := [effect];
  }

  /**
   * Every key of new-project mode but Enter: Esc leaves the mode, Tab switches between
   * the name and the path field, Backspace and characters edit the field being edited.
   */
  method EditNewProjectForm(state: AppState, key: KeyEvent)
    requires state.Valid()
    modifies state`newProjectMode, state`newProjectEditPath, state`newProjectNameInput, state`newProjectPathInput
    ensures state.Valid()
    ensures state.newProjectMode == (old(state.newProjectMode) && !key.code.Esc?)
    ensures state.newProjectEditPath == (if key.code.Tab? then !old(state.newProjectEditPath) else old(state.newProjectEditPath))
    ensures state.newProjectPathInput == (if old(state.newProjectEditPath) then Edited(old(state.newProjectPathInput), key)
                                          else old(state.newProjectPathInput))
    ensures state.newProjectNameInput == (if old(state.newProjectEditPath) then old(state.newProjectNameInput)
                                          else Edited(old(state.newProjectNameInput), key))
  {
    match key.code
    case Esc => state.newProjectMode := false;
    case Tab => state.newProjectEditPath := !state.newProjectEditPath;
    case Backspace =>
      if state.newProjectEditPath {
        state.newProjectPathInput := PopChar(state.newProjectPathInput);
      } else {
        state.newProjectNameInput := PopChar(state.newProjectNameInput);
      }
    case Char(c) =>
      if !key.control {
        if state.newProjectEditPath {
          state.newProjectPathInput := state.newProjectPathInput + [c];
        } else {
          state.newProjectNameInput := state.newProjectNameInput + [c];
        }
      }
    case _ =>
  }

  /** `on_new_project_input`: Enter submits the form; every other key edits it. */
  twostate predicate NewProjectKeyHandled(state: AppState, key: KeyEvent, host: Host, effects: seq<Effect>)
    reads state
  {
    if key.code.Enter? then NewProjectSubmitted(state, host, effects) && state.newProjectEditPath == old(state.newProjectEditPath)
    else
      && state.newProjectMode == (old(state.newProjectMode) && !key.code.Esc?)
      && state.newProjectEditPath == (if key.code.Tab? then !old(state.newProjectEditPath) else old(state.newProjectEditPath))
      && state.newProjectPathInput == (if old(state.newProjectEditPath) then Edited(old(state.newProjectPathInput), key)
                                       else old(state.newProjectPathInput))
      && state.newProjectNameInput == (if old(state.newProjectEditPath) then old(state.newProjectNameInput)
                                       else Edited(old(state.newProjectNameInput), key))
      && state.screen == old(state.screen) && state.statusLine == old(state.statusLine)
      && state.tasks == old(state.tasks) && state.nextTaskId == old(state.nextTaskId)
      && state.logs == old(state.logs)
      && effects == []
  }

  /** `on_new_project_input`. */
  method OnNewProjectInput(state: AppState, key: KeyEvent, host: Host) returns (effects: seq<Effect>)
    requires state.Valid()
    modifies state`newProjectMode, state`newProjectEditPath, state`newProjectNameInput, state`newProjectPathInput
    modifies state`screen, state`statusLine, state`nextTaskId, state`tasks, state`logs
    ensures state.Valid()
    ensures NewProjectKeyHandled(state, key, host, effects)
    ensures Bookkept(old(state.tasks), old(state.nextTaskId), state.tasks, state.nextTaskId, effects)
  {
    if key.code.Enter? {
      effects := SubmitNewProject(state, host);
    } else {
      effects := [];
      BookkeptUntouched(state.tasks, state.nextTaskId, effects);
      EditNewProjectForm(state, key);
    }
  }
}
