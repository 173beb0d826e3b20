/**
 * The per-screen key handlers of the reducer (src/app/reducer.rs, `on_new_key` to
 * `remove_selected_package`): the keys that act when no text input is open and the key
 * is not a global one.
 *
 * Each handler states the new value of every field its frame names, keeps
 * `AppState.Valid()` and the task bookkeeping, and launches at most one command.
 */
module ScreenKeys {
  import opened Wrappers
  import opened Platform
  import opened Text
  import opened State
  import opened Actions
  import opened Effects
  import opened Reducer

  // ---------------------------------------------------------------------------
  // Moving a selection
  // ---------------------------------------------------------------------------

  /** `j`: `index = (index + 1).min(len - 1)` when the list is not empty. */
  function StepDown(index: nat, len: nat): nat {
    if len == 0 then index else if index + 1 < len then index + 1 else len - 1
  }

  /** `k`: `index = index.saturating_sub(1)`. */
  function StepUp(index: nat): nat {
    SaturatingSub(index, 1)
  }

  /**
   * Going down keeps a usable selection usable, never goes back, moves by exactly one
   * unless already at the last item, and is what clamping the next index gives.
   */
  lemma StepDownSpec(index: nat, len: nat)
    ensures InRange(index, len) ==> InRange(StepDown(index, len), len)
    ensures index < len ==> index <= StepDown(index, len)
    ensures index + 1 < len ==> StepDown(index, len) == index + 1
    ensures 0 < len ==> StepDown(index, len) == Clamp(index + 1, len)
    ensures len == 0 ==> StepDown(index, len) == index
  {
  }

  /** Going up keeps a usable selection usable, never goes forward, and undoes going down. */
  lemma StepUpSpec(index: nat, len: nat)
    ensures InRange(index, len) ==> InRange(StepUp(index), len)
    ensures StepUp(index) <= index
    ensures index + 1 < len ==> StepUp(StepDown(index, len)) == index
    ensures 0 < index < len ==> StepDown(StepUp(index), len) == index
  {
  }

  /**
   * A command the screen refused: the status line says why, and nothing is launched,
   * recorded or logged.
   */
  twostate predicate Refused(state: AppState, effects: seq<Effect>, status: Status)
    reads state
  {
    && state.statusLine == status
    && state.tasks == old(state.tasks) && state.nextTaskId == old(state.nextTaskId)
    && state.logs == old(state.logs)
    && effects == []
  }

  /** A key the screen ignores: the launch fields keep their values and nothing is returned. */
  twostate predicate Ignored(state: AppState, effects: seq<Effect>)
    reads state
  {
    && state.statusLine == old(state.statusLine)
    && state.tasks == old(state.tasks) && state.nextTaskId == old(state.nextTaskId)
    && state.logs == old(state.logs)
    && effects == []
  }

  // ---------------------------------------------------------------------------
  // The New screen
  // ---------------------------------------------------------------------------

  /** `on_new_key`: `j`/`k` pick the template, `n` opens the form on its name field. */
  twostate predicate NewKeyHandled(state: AppState, key: KeyEvent, effects: seq<Effect>)
    reads state
  {
    && state.newProjectTemplateIdx == (
         if key.code == Char('j') then StepDown(old(state.newProjectTemplateIdx), 3)
         else if key.code == Char('k') then StepUp(old(state.newProjectTemplateIdx))
         else old(state.newProjectTemplateIdx))
    && state.newProjectMode == (key.code == Char('n') || old(state.newProjectMode))
    && state.newProjectEditPath == (key.code != Char('n') && old(state.newProjectEditPath))
    && effects == []
  }

  method OnNewKey(state: AppState, key: KeyEvent) returns (effects: seq<Effect>)
    requires state.Valid()
    modifies state`newProjectTemplateIdx, state`newProjectMode, state`newProjectEditPath
    ensures state.Valid()
    ensures NewKeyHandled(state, key, effects)
  {
    effects := [];
    match key.code
    case Char('j') =>
      state.newProjectTemplateIdx := if state.newProjectTemplateIdx + 1 < 2 then state.newProjectTemplateIdx + 1 else 2;
    case Char('k') =>
      state.newProjectTemplateIdx := SaturatingSub(state.newProjectTemplateIdx, 1);
    case Char('n') =>
      state.newProjectMode := true;
      state.newProjectEditPath := false;
    case _ =>
  }

  // ---------------------------------------------------------------------------
  // The Add screen
  // ---------------------------------------------------------------------------

  /** `on_add_key`: `a` opens the add-project input, `f` the add-folder input, both emptied. */
  twostate predicate AddKeyHandled(state: AppState, key: KeyEvent, effects: seq<Effect>)
    reads state
  {
    && state.addProjectMode == (key.code == Char('a') || old(state.addProjectMode))
    && state.addProjectInput == (if key.code == Char('a') then [] else old(state.addProjectInput))
    && state.addFolderMode == (key.code == Char('f') || old(state.addFolderMode))
    && state.addFolderInput == (if key.code == Char('f') then [] else old(state.addFolderInput))
    && effects == []
  }

  method OnAddKey(state: AppState, key: KeyEvent) returns (effects: seq<Effect>)
    requires state.Valid()
    modifies state`addProjectMode, state`addProjectInput, state`addFolderMode, state`addFolderInput
    ensures state.Valid()
    ensures AddKeyHandled(state, key, effects)
  {
    effects := [];
    match key.code
    case Char('a') =>
      state.addProjectMode := true;
      state.addProjectInput := [];
    case Char('f') =>
      state.addFolderMode := true;
      state.addFolderInput := [];
    case _ =>
  }

  // ---------------------------------------------------------------------------
  // The Projects screen
  // ---------------------------------------------------------------------------

  /**
   * `j` on the Projects screen, as written: the selection, an index into the whole
   * project list, is bounded by the length of the filtered list.
   */
  function ProjectsStepDownAsWritten(projects: seq<ProjectMeta>, query: string, selected: nat): nat {
    StepDown(selected, |ProjectView(projects, query)|)
  }

  /**
   * Even so, `j` keeps a usable project selection usable (the filtered list is never
   * longer than the whole one), leaves it alone when nothing matches, and without a
   * search it is the plain step down the whole list.
   */
  lemma ProjectsStepDownAsWrittenSpec(projects: seq<ProjectMeta>, query: string, selected: nat)
    ensures InRange(selected, |projects|) ==> InRange(ProjectsStepDownAsWritten(projects, query, selected), |projects|)
    ensures ProjectView(projects, query) == [] ==> ProjectsStepDownAsWritten(projects, query, selected) == selected
    ensures query == [] ==> ProjectsStepDownAsWritten(projects, query, selected) == StepDown(selected, |projects|)
  {
    ProjectViewSpec(projects, query);
  }

  /**
   * With a search active, `j` as written can move the selection backwards: three
   * projects, a query only the first matches, the last one selected, and `j` selects
   * the first.
   */
  lemma ProjectsStepDownAsWrittenGoesBack()
    ensures var projects := [ProjectMeta(Path("a"), "a", [], None),
                             ProjectMeta(Path("b"), "b", [], None),
                             ProjectMeta(Path("b2"), "b2", [], None)];
      ProjectsStepDownAsWritten(projects, "a", 2) == 0
  {
    var projects := [ProjectMeta(Path("a"), "a", [], None),
                     ProjectMeta(Path("b"), "b", [], None),
                     ProjectMeta(Path("b2"), "b2", [], None)];
    assert Lowercase("a") == "a";
    assert Lowercase("b") == "b";
    assert Lowercase("b2") == "b2";
    assert Contains("a", "a") by { assert OccursAt("a", "a", 0); }
    CharNotContained("b", 'a');
    CharNotContained("b2", 'a');
    assert ProjectMatches(projects[0], "a");
    assert !ProjectMatches(projects[1], "a");
    assert !ProjectMatches(projects[2], "a");
    assert projects[1..][1..] == [projects[2]];
    assert ProjectsMatching(projects, "a") == [projects[0]];
  }

  /** A one-character needle that is not among the characters of `hay` does not occur in it. */
  lemma CharNotContained(hay: string, c: char)
    requires forall k :: 0 <= k < |hay| ==> hay[k] != c
    ensures !Contains(hay, [c])
  {
    forall i | 0 <= i <= |hay| ensures !OccursAt(hay, [c], i) {
      if i + 1 <= |hay| {
        assert hay[i..i + 1][0] == hay[i];
      }
    }
  }

  /**
   * `on_projects_key`: `/` opens the search, `a` goes to the Add screen, `j`/`k` move the
   * selection (`j` bounded by the filtered list, as written), Enter goes to the Manage
   * screen and reads the selected project's manifest.
   */
  twostate predicate ProjectsKeyHandled(state: AppState, key: KeyEvent, effects: seq<Effect>)
    reads state
  {
    && state.searchMode == (key.code == Char('/') || old(state.searchMode))
    && state.screen == (
         if key.code == Char('a') then Add
         else if key.code.Enter? then Manage
         else old(state.screen))
    && state.selectedProject == (
         if key.code == Char('j') then ProjectsStepDownAsWritten(old(state.projects), old(state.searchQuery), old(state.selectedProject))
         else if key.code == Char('k') then StepUp(old(state.selectedProject))
         else old(state.selectedProject))
    && effects == (
         if key.code.Enter? && old(state.SelectedProject()).Some?
         then [ReadManifest(old(state.SelectedProject()).value.path)]
         else [])
  }

  method OnProjectsKey(state: AppState, key: KeyEvent) returns (effects: seq<Effect>)
    requires state.Valid()
    modifies state`searchMode, state`screen, state`selectedProject
    ensures state.Valid()
    ensures ProjectsKeyHandled(state, key, effects)
  {
    effects := [];
    match key.code
    case Char('/') => state.searchMode := true;
    case Char('a') => state.screen := Add;
    case Char('j') =>
      ProjectsStepDownAsWrittenSpec(state.projects, state.searchQuery, state.selectedProject);
      state.selectedProject := ProjectsStepDownAsWritten(state.projects, state.searchQuery, state.selectedProject);
    case Char('k') =>
      state.selectedProject := SaturatingSub(state.selectedProject, 1);
    case Enter =>
      state.screen := Manage;
      var selected := state.SelectedProject();
      if selected.Some? {
        effects := [ReadManifest(selected.value.path)];
      }
    case _ =>
  }

  // ---------------------------------------------------------------------------
  // The Manage screen: the commands on the selected project
  // ---------------------------------------------------------------------------

  /** `packages.iter().any(|p| p.name == name)`. */
  function HasPackage(packages: seq<PackageInfo>, name: string): (r: bool)
    ensures r <==> exists k :: 0 <= k < |packages| && packages[k].name == name
  {
    if packages == [] then false
    else if packages[0].name == name then true
    else
      var r := HasPackage(packages[1..], name);
      assert forall k :: 0 < k < |packages| ==> packages[k] == packages[1..][k - 1];
      r
  }

  /**
   * The VRChat SDK package a manifest holds: the avatars SDK if it has it, otherwise the
   * worlds SDK if it has that, otherwise none; what is named is always in the manifest.
   */
  function SdkPackage(packages: seq<PackageInfo>): (r: Option<string>)
    ensures r.Some? ==> (r.value == "com.vrchat.avatars" || r.value == "com.vrchat.worlds")
    ensures r.Some? ==> exists k :: 0 <= k < |packages| && packages[k].name == r.value
    ensures HasPackage(packages, "com.vrchat.avatars") ==> r == Some("com.vrchat.avatars")
    ensures r.None? ==> forall k :: 0 <= k < |packages| ==>
      packages[k].name != "com.vrchat.avatars" && packages[k].name != "com.vrchat.worlds"
  {
    if HasPackage(packages, "com.vrchat.avatars") then Some("com.vrchat.avatars")
    else if HasPackage(packages, "com.vrchat.worlds") then Some("com.vrchat.worlds")
    else None
  }

  /**
   * What installing the selected available package does: refused without a selected project
   * or package, otherwise `vpm add package <id>` is launched on the project, re-reading its
   * manifest when done.
   */
  twostate predicate InstallOutcome(state: AppState, effects: seq<Effect>)
    reads state
  {
    var project := old(state.SelectedProject());
    var pkg := old(state.SelectedAvailablePackage());
    if project.None? then Refused(state, effects, NoProjectSelected)
    else if pkg.None? then Refused(state, effects, NoAvailablePackageSelected)
    else
      var path := project.value.path;
      var name := pkg.value.id;
      Launched(state, effects, "vpm add package " + name, "vpm", ["add", "package", name, "-p", path.text], Some(path), None)
  }

  /** `install_selected_available_package` (`+`, `=`, `:`, `＋`, `a`). */
  method InstallSelectedAvailablePackage(state: AppState) returns (effects: seq<Effect>)
    requires state.Valid()
    modifies state`statusLine, state`nextTaskId, state`tasks, state`logs
    ensures state.Valid()
    ensures InstallOutcome(state, effects)
    ensures Bookkept(old(state.tasks), old(state.nextTaskId), state.tasks, state.nextTaskId, effects)
  {
    var project := state.SelectedProject();
    var pkg := state.SelectedAvailablePackage();
    if project.None? {
      state.statusLine := NoProjectSelected;
      effects := [];
      BookkeptUntouched(state.tasks, state.nextTaskId, effects);
    } else if pkg.None? {
      state.statusLine := NoAvailablePackageSelected;
      effects := [];
      BookkeptUntouched(state.tasks, state.nextTaskId, effects);
    } else {
      var path := project.value.path;
      var name := pkg.value.id;
      var effect := EnqueueProjectTask(state, "vpm add package " + name, ["add", "package", name, "-p", path.text], Some(path), None);
      effects := [effect];
    }
  }

  /** The title of a `vpm remove package` command, `--force` appended when forced. */
  function RemoveTitle(name: string, force: bool): string {
    "vpm remove package " + name + (if force then " --force" else "")
  }

  /** The arguments of a `vpm remove package` command on `path`. */
  function RemoveArgs(name: string, path: Path, force: bool): seq<string> {
    ["remove", "package", name, "-p", path.text] + (if force then ["--force"] else [])
  }

  /**
   * What removing the selected available package does: refused without a selected project
   * or package, otherwise `vpm remove package <id>` is launched on the project.
   */
  twostate predicate RemoveAvailableOutcome(state: AppState, effects: seq<Effect>, force: bool)
    reads state
  {
    var project := old(state.SelectedProject());
    var pkg := old(state.SelectedAvailablePackage());
    if project.None? then Refused(state, effects, NoProjectSelected)
    else if pkg.None? then Refused(state, effects, NoAvailablePackageSelected)
    else
      var path := project.value.path;
      var name := pkg.value.id;
      Launched(state, effects, RemoveTitle(name, force), "vpm", RemoveArgs(name, path, force), Some(path), None)
  }

  /** `remove_selected_available_package` (`-`, `_`, `－`, `x`). */
  method RemoveSelectedAvailablePackage(state: AppState, force: bool) returns (effects: seq<Effect>)
    requires state.Valid()
    modifies state`statusLine, state`nextTaskId, state`tasks, state`logs
    ensures state.Valid()
    ensures RemoveAvailableOutcome(state, effects, force)
    ensures Bookkept(old(state.tasks), old(state.nextTaskId), state.tasks, state.nextTaskId, effects)
  {
    var project := state.SelectedProject();
    var pkg := state.SelectedAvailablePackage();
    if project.None? {
      state.statusLine := NoProjectSelected;
      effects := [];
      BookkeptUntouched(state.tasks, state.nextTaskId, effects);
    } else if pkg.None? {
      state.statusLine := NoAvailablePackageSelected;
      effects := [];
      BookkeptUntouched(state.tasks, state.nextTaskId, effects);
    } else {
      var path := project.value.path;
      var name := pkg.value.id;
      var effect := EnqueueProjectTask(state, RemoveTitle(name, force), RemoveArgs(name, path, force), Some(path), None);
      effects := [effect];
    }
  }

  /**
   * What updating the selected installed package does: refused without a selected project
   * or installed package, otherwise that package is added again to the project.
   */
  twostate predicate UpdateInstalledOutcome(state: AppState, effects: seq<Effect>)
    reads state
  {
    var project := old(state.SelectedProject());
    var pkg := old(state.SelectedManifestPackage());
    if project.None? then Refused(state, effects, NoProjectSelected)
    else if pkg.None? then Refused(state, effects, NoInstalledPackageSelected)
    else
      var path := project.value.path;
      var name := pkg.value.name;
      Launched(state, effects, "vpm add package " + name + " (update)", "vpm",
               ["add", "package", name, "-p", path.text], Some(path), None)
  }

  /** `update_selected_installed_package` (`u`): re-add the selected installed package. */
  method UpdateSelectedInstalledPackage(state: AppState) returns (effects: seq<Effect>)
    requires state.Valid()
    modifies state`statusLine, state`nextTaskId, state`tasks, state`logs
    ensures state.Valid()
    ensures UpdateInstalledOutcome(state, effects)
    ensures Bookkept(old(state.tasks), old(state.nextTaskId), state.tasks, state.nextTaskId, effects)
  {
    var project := state.SelectedProject();
    var pkg := state.SelectedManifestPackage();
    if project.None? {
      state.statusLine := NoProjectSelected;
      effects := [];
      BookkeptUntouched(state.tasks, state.nextTaskId, effects);
    } else if pkg.None? {
      state.statusLine := NoInstalledPackageSelected;
      effects := [];
      BookkeptUntouched(state.tasks, state.nextTaskId, effects);
    } else {
      var path := project.value.path;
      var name := pkg.value.name;
      var effect := EnqueueProjectTask(state, "vpm add package " + name + " (update)",
                                       ["add", "package", name, "-p", path.text], Some(path), None);
      effects := [effect];
    }
  }

  /**
   * What updating the VRChat SDK does: refused without a selected project, without a loaded
   * manifest, or when the manifest has no SDK package; otherwise that package is added again.
   */
  twostate predicate SdkUpdateOutcome(state: AppState, effects: seq<Effect>)
    reads state
  {
    var project := old(state.SelectedProject());
    var manifest := old(state.selectedProjectManifest);
    if project.None? then Refused(state, effects, NoProjectSelected)
    else if manifest.None? then Refused(state, effects, ManifestNotLoaded)
    else if SdkPackage(manifest.value.packages).None? then Refused(state, effects, NoSdkPackageFound)
    else
      var path := project.value.path;
      var sdk := SdkPackage(manifest.value.packages).value;
      Launched(state, effects, "vpm add package " + sdk + " (sdk update)", "vpm",
               ["add", "package", sdk, "-p", path.text], Some(path), None)
  }

  /** `update_vrchat_sdk_package` (`U`): re-add the project's VRChat SDK package. */
  method UpdateVrchatSdkPackage(state: AppState) returns (effects: seq<Effect>)
    requires state.Valid()
    modifies state`statusLine, state`nextTaskId, state`tasks, state`logs
    ensures state.Valid()
    ensures SdkUpdateOutcome(state, effects)
    ensures Bookkept(old(state.tasks), old(state.nextTaskId), state.tasks, state.nextTaskId, effects)
  {
    var project := state.SelectedProject();
    if project.None? {
      state.statusLine := NoProjectSelected;
      effects := [];
      BookkeptUntouched(state.tasks, state.nextTaskId, effects);
    } else if state.selectedProjectManifest.None? {
      state.statusLine := ManifestNotLoaded;
      effects := [];
      BookkeptUntouched(state.tasks, state.nextTaskId, effects);
    } else {
      var sdk := SdkPackage(state.selectedProjectManifest.value.packages);
      if sdk.None? {
        state.statusLine := NoSdkPackageFound;
        effects := [];
        BookkeptUntouched(state.tasks, state.nextTaskId, effects);
      } else {
        var path := project.value.path;
        var effect := EnqueueProjectTask(state, "vpm add package " + sdk.value + " (sdk update)",
                                         ["add", "package", sdk.value, "-p", path.text], Some(path), None);
        effects := [effect];
      }
    }
  }

  /**
   * What resolving the selected project does: refused without one, otherwise
   * `vpm resolve project <path>` is launched on it.
   */
  twostate predicate ResolveOutcome(state: AppState, effects: seq<Effect>)
    reads state
  {
    var project := old(state.SelectedProject());
    if project.None? then Refused(state, effects, NoProjectSelected)
    else
      var path := project.value.path;
      Launched(state, effects, "vpm resolve project " + path.text, "vpm", ["resolve", "project", path.text], Some(path), None)
  }

  /** `resolve_selected_project` (`v`). */
  method ResolveSelectedProject(state: AppState) returns (effects: seq<Effect>)
    requires state.Valid()
    modifies state`statusLine, state`nextTaskId, state`tasks, state`logs
    ensures state.Valid()
    ensures ResolveOutcome(state, effects)
    ensures Bookkept(old(state.tasks), old(state.nextTaskId), state.tasks, state.nextTaskId, effects)
  {
    var project := state.SelectedProject();
    if project.None? {
      state.statusLine := NoProjectSelected;
      effects := [];
      BookkeptUntouched(state.tasks, state.nextTaskId, effects);
    } else {
      var path := project.value.path;
      var effect := EnqueueProjectTask(state, "vpm resolve project " + path.text, ["resolve", "project", path.text], Some(path), None);
      effects := [effect];
    }
  }

  /**
   * What removing the selected installed package does: refused without a selected project
   * or installed package, otherwise `vpm remove package <name>` is launched on the project.
   */
  twostate predicate RemoveInstalledOutcome(state: AppState, effects: seq<Effect>, force: bool)
    reads state
  {
    var project := old(state.SelectedProject());
    var pkg := old(state.SelectedManifestPackage());
    if project.None? then Refused(state, effects, NoProjectSelected)
    else if pkg.None? then Refused(state, effects, NoInstalledPackageSelected)
    else
      var path := project.value.path;
      var name := pkg.value.name;
      Launched(state, effects, RemoveTitle(name, force), "vpm", RemoveArgs(name, path, force), Some(path), None)
  }

  /** `remove_selected_package` (`d`, and `D` forced): remove the selected installed package. */
  method RemoveSelectedPackage(state: AppState, force: bool) returns (effects: seq<Effect>)
    requires state.Valid()
    modifies state`statusLine, state`nextTaskId, state`tasks, state`logs
    ensures state.Valid()
    ensures RemoveInstalledOutcome(state, effects, force)
    ensures Bookkept(old(state.tasks), old(state.nextTaskId), state.tasks, state.nextTaskId, effects)
  {
    var project := state.SelectedProject();
    var pkg := state.SelectedManifestPackage();
    if project.None? {
      state.statusLine := NoProjectSelected;
      effects := [];
      BookkeptUntouched(state.tasks, state.nextTaskId, effects);
    } else if pkg.None? {
      state.statusLine := NoInstalledPackageSelected;
      effects := [];
      BookkeptUntouched(state.tasks, state.nextTaskId, effects);
    } else {
      var path := project.value.path;
      var name := pkg.value.name;
      var effect := EnqueueProjectTask(state, RemoveTitle(name, force), RemoveArgs(name, path, force), Some(path), None);
      effects := [effect];
    }
  }

  // ---------------------------------------------------------------------------
  // The Manage screen: the key table
  // ---------------------------------------------------------------------------

  /** The keys that install the selected available package. */
  predicate IsInstallKey(code: KeyCode) {
    code in {Char('+'), Char('='), Char(':'), Char('\U{FF0B}'), Char('a')}
  }

  /** The keys that remove the selected available package. */
  predicate IsRemoveKey(code: KeyCode) {
    code in {Char('-'), Char('_'), Char('\U{FF0D}'), Char('x')}
  }

  /** The keys that launch a command on the selected project. */
  predicate IsManageCommandKey(code: KeyCode) {
    IsInstallKey(code) || IsRemoveKey(code) || code in {Char('u'), Char('U'), Char('d'), Char('D'), Char('v')}
  }

  /**
   * The browsing keys of the Manage screen: `r` re-reads the selected project's manifest,
   * `R` reloads the package list, `/` opens the package search, `h`/`l` focus the
   * available / installed list, `i` opens the add-package input, and `j`/`k` move the
   * selection of the focused list.
   */
  twostate predicate ManageBrowsed(state: AppState, key: KeyEvent, effects: seq<Effect>)
    reads state
  {
    var c := key.code;
    var focus := old(state.manageFocusAvailable);
    && state.availablePackageSearchMode == (c == Char('/') || old(state.availablePackageSearchMode))
    && state.manageFocusAvailable == (if c == Char('h') then true else if c == Char('l') then false else focus)
    && state.addPackageMode == (c == Char('i') || old(state.addPackageMode))
    && state.addPackageInput == (if c == Char('i') then [] else old(state.addPackageInput))
    && state.selectedAvailablePackage == (
         if focus && c == Char('j') then StepDown(old(state.selectedAvailablePackage), |old(state.FilteredAvailablePackages())|)
         else if focus && c == Char('k') then StepUp(old(state.selectedAvailablePackage))
         else old(state.selectedAvailablePackage))
    && state.selectedManifestPackage == (
         if !focus && c == Char('j') then StepDown(old(state.selectedManifestPackage), ManifestLen(old(state.selectedProjectManifest)))
         else if !focus && c == Char('k') then StepUp(old(state.selectedManifestPackage))
         else old(state.selectedManifestPackage))
    && effects == (
         if c == Char('r') && old(state.SelectedProject()).Some? then [ReadManifest(old(state.SelectedProject()).value.path)]
         else if c == Char('R') then [LoadAvailablePackages]
         else [])
  }

  /** `j`/`k` on the Manage screen: move the selection of the focused list. */
  method MoveManageSelection(state: AppState, down: bool)
    requires state.Valid()
    modifies state`selectedAvailablePackage, state`selectedManifestPackage
    ensures state.Valid()
    ensures state.selectedAvailablePackage == (
      if !state.manageFocusAvailable then old(state.selectedAvailablePackage)
      else if down then StepDown(old(state.selectedAvailablePackage), |state.FilteredAvailablePackages()|)
      else StepUp(old(state.selectedAvailablePackage)))
    ensures state.selectedManifestPackage == (
      if state.manageFocusAvailable then old(state.selectedManifestPackage)
      else if down then StepDown(old(state.selectedManifestPackage), ManifestLen(state.selectedProjectManifest))
      else StepUp(old(state.selectedManifestPackage)))
  {
    if state.manageFocusAvailable {
      var len := |state.FilteredAvailablePackages()|;
      StepDownSpec(state.selectedAvailablePackage, len);
      StepUpSpec(state.selectedAvailablePackage, len);
      state.selectedAvailablePackage :=
        if down then StepDown(state.selectedAvailablePackage, len) else SaturatingSub(state.selectedAvailablePackage, 1);
    } else {
      var len := ManifestLen(state.selectedProjectManifest);
      StepDownSpec(state.selectedManifestPackage, len);
      StepUpSpec(state.selectedManifestPackage, len);
      state.selectedManifestPackage :=
        if down then StepDown(state.selectedManifestPackage, len) else SaturatingSub(state.selectedManifestPackage, 1);
    }
  }

  /** The browsing keys of `on_manage_key`. */
  method BrowseManage(state: AppState, key: KeyEvent) returns (effects: seq<Effect>)
    requires state.Valid()
    modifies state`availablePackageSearchMode, state`manageFocusAvailable, state`addPackageMode, state`addPackageInput
    modifies state`selectedAvailablePackage, state`selectedManifestPackage
    ensures state.Valid()
    ensures ManageBrowsed(state, key, effects)
  {
    effects := [];
    if key.code == Char('j') || key.code == Char('k') {
      MoveManageSelection(state, key.code == Char('j'));
    } else {
      match key.code
      case Char('r') =>
        var selected := state.SelectedProject();
        if selected.Some? {
          effects := [ReadManifest(selected.value.path)];
        }
      case Char('R') => effects := [LoadAvailablePackages];
      case Char('/') => state.availablePackageSearchMode := true;
      case Char('h') => state.manageFocusAvailable := true;
      case Char('l') => state.manageFocusAvailable := false;
      case Char('i') =>
        state.addPackageMode := true;
        state.addPackageInput := [];
      case _ =>
    }
  }

  /** The command keys of the Manage screen, each running one of the commands above. */
  twostate predicate ManageCommanded(state: AppState, key: KeyEvent, effects: seq<Effect>)
    reads state
  {
    var c := key.code;
    if IsInstallKey(c) then InstallOutcome(state, effects)
    else if IsRemoveKey(c) then RemoveAvailableOutcome(state, effects, false)
    else if c == Char('u') then UpdateInstalledOutcome(state, effects)
    else if c == Char('U') then SdkUpdateOutcome(state, effects)
    else if c == Char('d') then RemoveInstalledOutcome(state, effects, false)
    else if c == Char('D') then RemoveInstalledOutcome(state, effects, true)
    else ResolveOutcome(state, effects)
  }

  /** The command keys of `on_manage_key`. */
  method CommandManage(state: AppState, key: KeyEvent) returns (effects: seq<Effect>)
    requires state.Valid()
    requires IsManageCommandKey(key.code)
    modifies state`statusLine, state`nextTaskId, state`tasks, state`logs
    ensures state.Valid()
    ensures ManageCommanded(state, key, effects)
    ensures Bookkept(old(state.tasks), old(state.nextTaskId), state.tasks, state.nextTaskId, effects)
  {
    var c := key.code;
    if IsInstallKey(c) {
      effects := InstallSelectedAvailablePackage(state);
    } else if IsRemoveKey(c) {
      effects := RemoveSelectedAvailablePackage(state, false);
    } else if c == Char('u') {
      effects := UpdateSelectedInstalledPackage(state);
    } else if c == Char('U') {
      effects := UpdateVrchatSdkPackage(state);
    } else if c == Char('d') {
      effects := RemoveSelectedPackage(state, false);
    } else if c == Char('D') {
      effects := RemoveSelectedPackage(state, true);
    } else {
      effects := ResolveSelectedProject(state);
    }
  }

  /**
   * `on_manage_key`: a command key runs its command and leaves the screen's fields alone;
   * any other key browses and launches nothing.
   */
  twostate predicate ManageKeyHandled(state: AppState, key: KeyEvent, effects: seq<Effect>)
    reads state
  {
    if IsManageCommandKey(key.code) then
      && ManageCommanded(state, key, effects)
      && state.availablePackageSearchMode == old(state.availablePackageSearchMode)
      && state.manageFocusAvailable == old(state.manageFocusAvailable)
      && state.addPackageMode == old(state.addPackageMode)
      && state.addPackageInput == old(state.addPackageInput)
      && state.selectedAvailablePackage == old(state.selectedAvailablePackage)
      && state.selectedManifestPackage == old(state.selectedManifestPackage)
    else
      && ManageBrowsed(state, key, effects)
      && state.statusLine == old(state.statusLine)
      && state.tasks == old(state.tasks) && state.nextTaskId == old(state.nextTaskId)
      && state.logs == old(state.logs)
  }

  method OnManageKey(state: AppState, key: KeyEvent) returns (effects: seq<Effect>)
    requires state.Valid()
    modifies state`availablePackageSearchMode, state`manageFocusAvailable, state`addPackageMode, state`addPackageInput
    modifies state`selectedAvailablePackage, state`selectedManifestPackage
    modifies state`statusLine, state`nextTaskId, state`tasks, state`logs
    ensures state.Valid()
    ensures ManageKeyHandled(state, key, effects)
    ensures Bookkept(old(state.tasks), old(state.nextTaskId), state.tasks, state.nextTaskId, effects)
  {
    if IsManageCommandKey(key.code) {
      effects := CommandManage(state, key);
    } else {
      effects := BrowseManage(state, key);
      BookkeptUntouched(state.tasks, state.nextTaskId, effects);
    }
  }

  // ---------------------------------------------------------------------------
  // The Settings screen
  // ---------------------------------------------------------------------------

  /** The `vpm` commands the Settings screen runs directly, by key: their titles and arguments. */
  function SettingsCommand(c: char): Option<(string, seq<string>)> {
    match c
    case 't' => Some(("vpm install templates", ["install", "templates"]))
    case 'h' => Some(("vpm check hub", ["check", "hub"]))
    case 'u' => Some(("vpm check unity", ["check", "unity"]))
    case 'l' => Some(("vpm list unity", ["list", "unity"]))
    case 's' => Some(("vpm open settingsFolder", ["open", "settingsFolder"]))
    case '1' => Some(("vpm add repo " + NADENA_REPO_URL, ["add", "repo", NADENA_REPO_URL]))
    case '2' => Some(("vpm add repo " + LILTOON_REPO_URL, ["add", "repo", LILTOON_REPO_URL]))
    case 'r' => Some(("vpm list repos", ["list", "repos"]))
    case _ => None
  }

  /** The `dotnet` commands of the Settings screen, by key: installing and updating `vpm`. */
  function DotnetCommand(c: char): Option<(string, seq<string>)> {
    match c
    case 'i' => Some(("dotnet tool install vpm", ["tool", "install", "--global", "vrchat.vpm.cli"]))
    case 'p' => Some(("dotnet tool update vpm", ["tool", "update", "--global", "vrchat.vpm.cli"]))
    case _ => None
  }

  /**
   * Settings `c` (`tasks.iter().rev().find(Running)`): cancel the most recently appended
   * task that is still running, and nothing when none is.
   */
  function CancelLatest(tasks: seq<TaskRecord>): (r: seq<Effect>)
    ensures |r| <= 1 && LaunchesNothing(r)
    ensures r == [] <==> forall j :: 0 <= j < |tasks| ==> tasks[j].state != Running
    ensures r != [] ==> exists i :: 0 <= i < |tasks| && tasks[i].state == Running && r == [CancelTask(tasks[i].id)]
                                    && forall j :: i < j < |tasks| ==> tasks[j].state != Running
  {
    match LastRunning(tasks)
    case Some(i) => [CancelTask(tasks[i].id)]
    case None => []
  }

  /**
   * `on_settings_key`: the direct `vpm` commands are launched; the `dotnet` ones too,
   * unless the probe found no `dotnet`; `a` opens the add-repo input; `c` asks to cancel
   * the latest running task without touching the task list; other keys do nothing.
   */
  twostate predicate SettingsKeyHandled(state: AppState, key: KeyEvent, effects: seq<Effect>)
    reads state
  {
    var c := if key.code.Char? then key.code.c else '\0';
    var opens := key.code == Char('a');
    && state.addRepoMode == (opens || old(state.addRepoMode))
    && state.addRepoInput == (if opens then [] else old(state.addRepoInput))
    && if key.code.Char? && SettingsCommand(c).Some? then
         Launched(state, effects, SettingsCommand(c).value.0, "vpm", SettingsCommand(c).value.1, None, None)
       else if key.code.Char? && DotnetCommand(c).Some? then
         if old(state.systemChecks.dotnetVersion) == Some("not installed") then Refused(state, effects, DotnetRequired)
         else Launched(state, effects, DotnetCommand(c).value.0, "dotnet", DotnetCommand(c).value.1, None, None)
       else
         && state.statusLine == old(state.statusLine)
         && state.tasks == old(state.tasks) && state.nextTaskId == old(state.nextTaskId)
         && state.logs == old(state.logs)
         && effects == (if key.code == Char('c') then CancelLatest(old(state.tasks)) else [])
  }

  /** A direct `vpm` command of the Settings screen. */
  method RunSettingsCommand(state: AppState, key: KeyEvent) returns (effects: seq<Effect>)
    requires state.Valid()
    requires key.code.Char? && SettingsCommand(key.code.c).Some?
    modifies state`addRepoMode, state`addRepoInput, state`statusLine, state`nextTaskId, state`tasks, state`logs
    ensures state.Valid()
    ensures SettingsKeyHandled(state, key, effects)
    ensures Bookkept(old(state.tasks), old(state.nextTaskId), state.tasks, state.nextTaskId, effects)
  {
    var command := SettingsCommand(key.code.c).value;
    var effect := EnqueueSystemTask(state, command.0, command.1);
    effects := [effect];
  }

  /** A `dotnet` command of the Settings screen: refused when the probe found no `dotnet`. */
  method RunDotnetCommand(state: AppState, key: KeyEvent) returns (effects: seq<Effect>)
    requires state.Valid()
    requires key.code.Char? && SettingsCommand(key.code.c).None? && DotnetCommand(key.code.c).Some?
    modifies state`addRepoMode, state`addRepoInput, state`statusLine, state`nextTaskId, state`tasks, state`logs
    ensures state.Valid()
    ensures SettingsKeyHandled(state, key, effects)
    ensures Bookkept(old(state.tasks), old(state.nextTaskId), state.tasks, state.nextTaskId, effects)
  {
    var command := DotnetCommand(key.code.c).value;
    if state.systemChecks.dotnetVersion == Some("not installed") {
      state.statusLine := DotnetRequired;
      effects := [];
      BookkeptUntouched(state.tasks, state.nextTaskId, effects);
    } else {
      var effect := EnqueueDotnetTask(state, command.0, command.1);
      effects := [effect];
    }
  }

  /** The Settings keys that run no command: `a` opens the add-repo input, `c` asks to cancel. */
  method SettingsOtherKey(state: AppState, key: KeyEvent) returns (effects: seq<Effect>)
    requires state.Valid()
    requires !(key.code.Char? && (SettingsCommand(key.code.c).Some? || DotnetCommand(key.code.c).Some?))
    modifies state`addRepoMode, state`addRepoInput, state`statusLine, state`nextTaskId, state`tasks, state`logs
    ensures state.Valid()
    ensures SettingsKeyHandled(state, key, effects)
    ensures Bookkept(old(state.tasks), old(state.nextTaskId), state.tasks, state.nextTaskId, effects)
  {
    if key.code == Char('a') {
      state.addRepoMode := true;
      state.addRepoInput := [];
    }
    effects := if key.code == Char('c') then CancelLatest(state.tasks) else [];
    BookkeptUntouched(state.tasks, state.nextTaskId, effects);
  }

  method OnSettingsKey(state: AppState, key: KeyEvent) returns (effects: seq<Effect>)
    requires state.Valid()
    modifies state`addRepoMode, state`addRepoInput, state`statusLine, state`nextTaskId, state`tasks, state`logs
    ensures state.Valid()
    ensures SettingsKeyHandled(state, key, effects)
    ensures Bookkept(old(state.tasks), old(state.nextTaskId), state.tasks, state.nextTaskId, effects)
  {
    if key.code.Char? && SettingsCommand(key.code.c).Some? {
      effects := RunSettingsCommand(state, key);
    } else if key.code.Char? && DotnetCommand(key.code.c).Some? {
      effects := RunDotnetCommand(state, key);
    } else {
      effects := SettingsOtherKey(state, key);
    }
  }
}
