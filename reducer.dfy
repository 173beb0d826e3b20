/**
 * The reducer (src/app/reducer.rs): the one place the application state changes.
 * `Reduce` applies one action to the state in place and returns the effects the
 * executor is to perform; the key handlers below it do the same for one key press.
 *
 * Every handler is proved to keep `AppState.Valid()` and the task bookkeeping:
 * records are never removed and keep their id and title, every `RunCommand` effect
 * is matched by exactly one freshly appended `Running` record, and (below the top
 * of the `u64` range) task ids stay strictly increasing and below `nextTaskId`.
 */
module Reducer {
  import opened Wrappers
  import opened Platform
  import opened Text
  import opened State
  import opened Actions
  import opened Effects

  const NADENA_REPO_URL: string := "https://vpm.nadena.dev/vpm.json"
  const LILTOON_REPO_URL: string := "https://lilxyzw.github.io/vpm-repos/vpm.json"

  // ---------------------------------------------------------------------------
  // Task bookkeeping
  // ---------------------------------------------------------------------------

  /** `tasks.iter().find(|t| t.id == id)`, as the position of the first record with that id. */
  function FindTask(tasks: seq<TaskRecord>, id: nat): (r: Option<nat>)
    ensures r.Some? ==> r.value < |tasks| && tasks[r.value].id == id
    ensures r.Some? ==> forall j :: 0 <= j < r.value ==> tasks[j].id != id
    ensures r.None? <==> forall j :: 0 <= j < |tasks| ==> tasks[j].id != id
  {
    if tasks == [] then None
    else if tasks[0].id == id then Some(0)
    else
      match FindTask(tasks[1..], id)
      case Some(k) => Some(k + 1)
      case None => None
  }

  /** With fresh ids, the record `FindTask` finds is the only one with that id. */
  lemma FindTaskUnique(tasks: seq<TaskRecord>, nextId: nat, id: nat, j: nat)
    requires IdsFresh(tasks, nextId)
    requires j < |tasks| && tasks[j].id == id
    ensures FindTask(tasks, id) == Some(j)
  {
  }

  /** `tasks.iter().rev().find(|t| t.state == Running)`, as a position. */
  function LastRunning(tasks: seq<TaskRecord>): (r: Option<nat>)
    ensures r.Some? ==> r.value < |tasks| && tasks[r.value].state == Running
    ensures r.Some? ==> forall j :: r.value < j < |tasks| ==> tasks[j].state != Running
    ensures r.None? <==> forall j :: 0 <= j < |tasks| ==> tasks[j].state != Running
  {
    if tasks == [] then None
    else if tasks[|tasks| - 1].state == Running then Some(|tasks| - 1)
    else LastRunning(tasks[..|tasks| - 1])
  }

  /**
   * `task_is_label`: the first record with this id exists and carries this title.
   * When ids are distinct that is: some record has this id, and it has this title.
   */
  function TaskIsLabel(tasks: seq<TaskRecord>, id: nat, title: string): (r: bool)
    ensures r ==> exists i :: 0 <= i < |tasks| && tasks[i].id == id && tasks[i].title == title
    ensures ((exists i :: 0 <= i < |tasks| && tasks[i].id == id) &&
             (forall i :: 0 <= i < |tasks| && tasks[i].id == id ==> tasks[i].title == title)) ==> r
  {
    match FindTask(tasks, id)
    case Some(i) => tasks[i].title == title
    case None => false
  }

  /** The terminal state of a completed task: cancellation overrides success. */
  function TerminalState(success: bool, cancelled: bool): (s: TaskState)
    ensures s != Running
    ensures s == Cancelled <==> cancelled
    ensures s == Success <==> !cancelled && success
    ensures s == Failed <==> !cancelled && !success
  {
    if cancelled then Cancelled else if success then Success else Failed
  }

  /** The status line (and last log line) reporting a completion. */
  function DoneStatus(id: nat, success: bool, cancelled: bool): (s: Status)
    ensures (s.TaskCancelled? || s.TaskFinished? || s.TaskFailed?) && s.taskId == id
    ensures s.TaskCancelled? <==> cancelled
    ensures s.TaskFinished? <==> !cancelled && success
    ensures s.TaskFailed? <==> !cancelled && !success
  {
    if cancelled then TaskCancelled(id) else if success then TaskFinished(id) else TaskFailed(id)
  }

  /**
   * `task_state_text`: one word per state, and for a failure the error or the exit
   * code (-1 when there is none). The text tells the four states apart.
   */
  function TaskStateText(task: TaskRecord): (r: string)
    ensures r == "running" <==> task.state == Running
    ensures r == "ok" <==> task.state == Success
    ensures r == "cancelled" <==> task.state == Cancelled
    ensures task.state == Failed <==> StartsWith(r, "failed")
    ensures task.state == Failed && task.error.Some? ==> r == "failed: " + task.error.value
  {
    match task.state
    case Running => assert "running"[0] != 'f'; "running"
    case Success => assert "ok"[0] != 'f'; "ok"
    case Cancelled => assert "cancelled"[0] != 'f'; "cancelled"
    case Failed =>
      var detail :=
        if task.error.Some? then ": " + task.error.value
        else " (exit=" + IntToString(if task.exitCode.Some? then task.exitCode.value else -1) + ")";
      assert |detail| >= 2;
      var r := "failed" + detail;
      assert r[..6] == "failed" && r[0] == 'f';
      r
  }

  /** A freshly admitted task record. */
  function NewTask(id: nat, title: string, refresh: Option<Path>, pending: Option<ProjectMeta>): TaskRecord {
    TaskRecord(id, title, Running, None, None, refresh, pending)
  }

  /** The (id, title) of every `RunCommand` among `effects`, in order. */
  function Commands(effects: seq<Effect>): seq<(nat, string)>
    decreases |effects|
  {
    if effects == [] then []
    else
      var head := if effects[0].RunCommand? then [(effects[0].taskId, effects[0].title)] else [];
      head + Commands(effects[1..])
  }

  /** `Commands` of a concatenation is the concatenation of the `Commands`. */
  lemma {:induction false} CommandsAppend(a: seq<Effect>, b: seq<Effect>)
    ensures Commands(a + b) == Commands(a) + Commands(b)
    decreases |a|
  {
    if a != [] {
      assert (a + b)[1..] == a[1..] + b;
      CommandsAppend(a[1..], b);
    } else {
      assert a + b == b;
    }
  }

  /** The (id, title) of every record of `tasks`, in order. */
  function Launches(tasks: seq<TaskRecord>): (r: seq<(nat, string)>)
    ensures |r| == |tasks|
    ensures forall k :: 0 <= k < |tasks| ==> r[k] == (tasks[k].id, tasks[k].title)
  {
    seq(|tasks|, k requires 0 <= k < |tasks| => (tasks[k].id, tasks[k].title))
  }

  /**
   * The task admission rule between two states: no record was removed, the old ones
   * keep their id and title, every appended record is `Running`, and the appended
   * records are exactly the tasks the effects launch, in order.
   */
  ghost predicate Admitted(before: seq<TaskRecord>, after: seq<TaskRecord>, effects: seq<Effect>) {
    && |before| <= |after|
    && (forall k :: 0 <= k < |before| ==> after[k].id == before[k].id && after[k].title == before[k].title)
    && (forall k :: |before| <= k < |after| ==> after[k].state == Running)
    && Commands(effects) == Launches(after[|before|..])
  }

  /**
   * Two admission steps in a row are one admission step, provided the second leaves
   * the records the first appended in their state.
   */
  lemma AdmittedCompose(a: seq<TaskRecord>, b: seq<TaskRecord>, c: seq<TaskRecord>, e1: seq<Effect>, e2: seq<Effect>)
    requires Admitted(a, b, e1) && Admitted(b, c, e2)
    requires forall k :: |a| <= k < |b| ==> c[k].state == b[k].state
    ensures Admitted(a, c, e1 + e2)
  {
    CommandsAppend(e1, e2);
    assert c[|a|..] == c[|a|..|b|] + c[|b|..];
    assert Launches(c[|a|..|b|]) == Launches(b[|a|..]);
    assert Launches(c[|a|..]) == Launches(c[|a|..|b|]) + Launches(c[|b|..]);
  }

  /** None of `effects` runs a command. */
  predicate LaunchesNothing(effects: seq<Effect>) {
    forall k :: 0 <= k < |effects| ==> !effects[k].RunCommand?
  }

  lemma LaunchesNothingAppend(a: seq<Effect>, b: seq<Effect>)
    requires LaunchesNothing(a) && LaunchesNothing(b)
    ensures LaunchesNothing(a + b)
  {
  }

  /** A step that launches nothing and leaves the task list alone is an admission step. */
  lemma AdmittedNothing(tasks: seq<TaskRecord>, effects: seq<Effect>)
    requires LaunchesNothing(effects)
    ensures Admitted(tasks, tasks, effects)
  {
    NoCommands(effects);
  }

  lemma {:induction false} NoCommands(effects: seq<Effect>)
    requires LaunchesNothing(effects)
    ensures Commands(effects) == []
    decreases |effects|
  {
    if effects != [] {
      NoCommands(effects[1..]);
    }
  }

  /**
   * What the reducer promises about the task list across one step: an admission step,
   * a counter that never goes back, and, with room for two more ids below the top of
   * `u64`, ids that stay strictly increasing and below the counter.
   */
  ghost predicate Bookkept(
    tasks0: seq<TaskRecord>, next0: nat, tasks1: seq<TaskRecord>, next1: nat, effects: seq<Effect>)
  {
    && Admitted(tasks0, tasks1, effects)
    && next0 <= next1
    && (IdsFresh(tasks0, next0) && next0 + 2 <= U64_MAX ==> IdsFresh(tasks1, next1))
  }

  /** A step that launches nothing and leaves tasks and counter alone keeps the books. */
  lemma BookkeptUntouched(tasks: seq<TaskRecord>, next: nat, effects: seq<Effect>)
    requires LaunchesNothing(effects)
    ensures Bookkept(tasks, next, tasks, next, effects)
  {
    AdmittedNothing(tasks, effects);
  }

  /**
   * `enqueue_command_task` as seen from its caller: the one effect runs `program` under
   * the old `nextTaskId`, one `Running` record with that id and title is appended, the
   * counter moves on (saturating at the top of `u64`), and the status line and log
   * announce the start.
   */
  twostate predicate Launched(
    state: AppState, effects: seq<Effect>, title: string, program: string, args: seq<string>,
    refresh: Option<Path>, pending: Option<ProjectMeta>)
    reads state
  {
    var id := old(state.nextTaskId);
    && effects == [RunCommand(id, title, program, args)]
    && state.tasks == old(state.tasks) + [NewTask(id, title, refresh, pending)]
    && state.nextTaskId == (if id < U64_MAX then id + 1 else id)
    && state.statusLine == RunningTask(title)
    && state.logs == KeepLast(old(state.logs) + [LogEntry(Some(id), TaskStarted(id, title))], MAX_LOG_LINES)
  }

  /** A launch keeps the books: it is an admission step, and below the top of `u64` it keeps task ids fresh. */
  lemma LaunchBookkept(
    tasks: seq<TaskRecord>, nextId: nat, title: string, program: string, args: seq<string>,
    refresh: Option<Path>, pending: Option<ProjectMeta>)
    requires nextId <= U64_MAX
    ensures Bookkept(tasks, nextId, tasks + [NewTask(nextId, title, refresh, pending)], SaturatingAdd(nextId, 1, U64_MAX),
                     [RunCommand(nextId, title, program, args)])
    ensures IdsFresh(tasks, nextId) && nextId < U64_MAX ==>
      IdsFresh(tasks + [NewTask(nextId, title, refresh, pending)], nextId + 1)
  {
    var after := tasks + [NewTask(nextId, title, refresh, pending)];
    assert after[|tasks|..] == [NewTask(nextId, title, refresh, pending)];
    assert Commands([RunCommand(nextId, title, program, args)]) == [(nextId, title)];
  }

  /** `enqueue_command_task`. */
  method EnqueueCommandTask(
    state: AppState, title: string, program: string, args: seq<string>,
    refresh: Option<Path>, pending: Option<ProjectMeta>)
    returns (effect: Effect)
    requires state.Valid()
    modifies state`nextTaskId, state`tasks, state`statusLine, state`logs
    ensures state.Valid()
    ensures Launched(state, [effect], title, program, args, refresh, pending)
    ensures Bookkept(old(state.tasks), old(state.nextTaskId), state.tasks, state.nextTaskId, [effect])
  {
    LaunchBookkept(state.tasks, state.nextTaskId, title, program, args, refresh, pending);
    var taskId := state.nextTaskId;
    state.nextTaskId := SaturatingAdd(state.nextTaskId, 1, U64_MAX);
    state.tasks := state.tasks + [NewTask(taskId, title, refresh, pending)];
    state.statusLine := RunningTask(title);
    state.PushLog(Some(taskId), TaskStarted(taskId, title));
    effect := RunCommand(taskId, title, program, args);
  }

  /** `enqueue_project_task`: a command of the package tool `vpm`. */
  method EnqueueProjectTask(
    state: AppState, title: string, args: seq<string>, refresh: Option<Path>, pending: Option<ProjectMeta>)
    returns (effect: Effect)
    requires state.Valid()
    modifies state`nextTaskId, state`tasks, state`statusLine, state`logs
    ensures state.Valid()
    ensures Launched(state, [effect], title, "vpm", args, refresh, pending)
    ensures Bookkept(old(state.tasks), old(state.nextTaskId), state.tasks, state.nextTaskId, [effect])
  {
    effect := EnqueueCommandTask(state, title, "vpm", args, refresh, pending);
  }

  /** `enqueue_system_task`: a `vpm` command with no continuation. */
  method EnqueueSystemTask(state: AppState, title: string, args: seq<string>) returns (effect: Effect)
    requires state.Valid()
    modifies state`nextTaskId, state`tasks, state`statusLine, state`logs
    ensures state.Valid()
    ensures Launched(state, [effect], title, "vpm", args, None, None)
    ensures Bookkept(old(state.tasks), old(state.nextTaskId), state.tasks, state.nextTaskId, [effect])
  {
    effect := EnqueueProjectTask(state, title, args, None, None);
  }

  /** `enqueue_dotnet_task`: a `dotnet` command with no continuation. */
  method EnqueueDotnetTask(state: AppState, title: string, args: seq<string>) returns (effect: Effect)
    requires state.Valid()
    modifies state`nextTaskId, state`tasks, state`statusLine, state`logs
    ensures state.Valid()
    ensures Launched(state, [effect], title, "dotnet", args, None, None)
    ensures Bookkept(old(state.tasks), old(state.nextTaskId), state.tasks, state.nextTaskId, [effect])
  {
    effect := EnqueueCommandTask(state, title, "dotnet", args, None, None);
  }

  // ---------------------------------------------------------------------------
  // The `Action` arms of `reduce`
  // ---------------------------------------------------------------------------

  /** `Action::Init`: load the config and the package list, and probe `vpm` and `dotnet`. */
  method ReduceInit(state: AppState) returns (effects: seq<Effect>)
    requires state.Valid()
    modifies state`nextTaskId, state`tasks, state`statusLine, state`logs
    ensures state.Valid()
    ensures var n0 := old(state.nextTaskId);
      var n1 := SaturatingAdd(n0, 1, U64_MAX);
      && effects == [LoadConfig, LoadAvailablePackages,
                     RunCommand(n0, "vpm --version", "vpm", ["--version"]),
                     RunCommand(n1, "dotnet --version", "dotnet", ["--version"])]
      && state.tasks == old(state.tasks) + [NewTask(n0, "vpm --version", None, None), NewTask(n1, "dotnet --version", None, None)]
      && state.nextTaskId == SaturatingAdd(n1, 1, U64_MAX)
      && state.statusLine == RunningTask("dotnet --version")
      && state.logs == KeepLast(old(state.logs) + [LogEntry(Some(n0), TaskStarted(n0, "vpm --version")),
                                                   LogEntry(Some(n1), TaskStarted(n1, "dotnet --version"))], MAX_LOG_LINES)
    ensures Bookkept(old(state.tasks), old(state.nextTaskId), state.tasks, state.nextTaskId, effects)
  {
    ghost var tasks0, next0, logs0 := state.tasks, state.nextTaskId, state.logs;
    var vpm := EnqueueSystemTask(state, "vpm --version", ["--version"]);
    ghost var next1 := state.nextTaskId;
    var dotnet := EnqueueDotnetTask(state, "dotnet --version", ["--version"]);
    effects := [LoadConfig, LoadAvailablePackages, vpm, dotnet];
    InitBookkeeping(tasks0, next0);
    PushedTwice(logs0, LogEntry(Some(next0), TaskStarted(next0, "vpm --version")),
      LogEntry(Some(next1), TaskStarted(next1, "dotnet --version")));
  }

  /** The two probes `Init` launches keep the books. */
  lemma InitBookkeeping(tasks: seq<TaskRecord>, n0: nat)
    requires n0 <= U64_MAX
    ensures var n1 := SaturatingAdd(n0, 1, U64_MAX);
      Bookkept(tasks, n0,
        tasks + [NewTask(n0, "vpm --version", None, None), NewTask(n1, "dotnet --version", None, None)],
        SaturatingAdd(n1, 1, U64_MAX),
        [LoadConfig, LoadAvailablePackages,
         RunCommand(n0, "vpm --version", "vpm", ["--version"]),
         RunCommand(n1, "dotnet --version", "dotnet", ["--version"])])
  {
    var n1 := SaturatingAdd(n0, 1, U64_MAX);
    var loads := [LoadConfig, LoadAvailablePackages];
    var vpm := RunCommand(n0, "vpm --version", "vpm", ["--version"]);
    var dotnet := RunCommand(n1, "dotnet --version", "dotnet", ["--version"]);
    var t1 := tasks + [NewTask(n0, "vpm --version", None, None)];
    var t2 := t1 + [NewTask(n1, "dotnet --version", None, None)];
    LaunchBookkept(tasks, n0, "vpm --version", "vpm", ["--version"], None, None);
    LaunchBookkept(t1, n1, "dotnet --version", "dotnet", ["--version"], None, None);
    AdmittedNothing(tasks, loads);
    AdmittedCompose(tasks, tasks, t1, loads, [vpm]);
    AdmittedCompose(tasks, t1, t2, loads + [vpm], [dotnet]);
    assert loads + [vpm] + [dotnet] == [LoadConfig, LoadAvailablePackages, vpm, dotnet];
    assert t2 == tasks + [NewTask(n0, "vpm --version", None, None), NewTask(n1, "dotnet --version", None, None)];
  }

  /** `Action::Tick`: count the tick, saturating at the top of `u64`. */
  method ReduceTick(state: AppState) returns (effects: seq<Effect>)
    requires state.Valid()
    modifies state`tickCount
    ensures state.Valid()
    ensures state.tickCount == SaturatingAdd(old(state.tickCount), 1, U64_MAX)
    ensures effects == []
  {
    state.tickCount := SaturatingAdd(state.tickCount, 1, U64_MAX);
    effects := [];
  }

  /** The projects a loaded config keeps: those whose path exists, in their order. */
  function ExistingProjects(projects: seq<ProjectMeta>, host: Host): seq<ProjectMeta> {
    if projects == [] then []
    else
      var rest := ExistingProjects(projects[1..], host);
      if host.PathExists(projects[0].path) then [projects[0]] + rest else rest
  }

  /** Loading keeps only existing projects, in their order. */
  lemma {:induction false} ExistingProjectsComplete(projects: seq<ProjectMeta>, host: Host)
    ensures |ExistingProjects(projects, host)| <= |projects|
    ensures forall k :: 0 <= k < |ExistingProjects(projects, host)| ==> host.PathExists(ExistingProjects(projects, host)[k].path)
    ensures Subsequence(ExistingProjects(projects, host), projects)
    decreases |projects|
  {
    if projects != [] {
      var rest := ExistingProjects(projects[1..], host);
      ExistingProjectsComplete(projects[1..], host);
      if host.PathExists(projects[0].path) {
        var r := [projects[0]] + rest;
        assert ExistingProjects(projects, host) == r;
        assert r[1..] == rest;
        forall k | 0 <= k < |r| ensures host.PathExists(r[k].path) {
          if k > 0 {
            assert r[k] == rest[k - 1];
          }
        }
      }
    }
  }

  /** Loading drops no existing project: each is kept as often as it was listed. */
  lemma {:induction false} ExistingProjectsCounts(projects: seq<ProjectMeta>, host: Host)
    ensures forall p :: multiset(ExistingProjects(projects, host))[p] ==
                        if host.PathExists(p.path) then multiset(projects)[p] else 0
    decreases |projects|
  {
    if projects != [] {
      ExistingProjectsCounts(projects[1..], host);
      assert projects == [projects[0]] + projects[1..];
    }
  }

  /** Dropping missing projects keeps the paths unique. */
  lemma ExistingProjectsKeepsUnique(projects: seq<ProjectMeta>, host: Host)
    ensures UniquePaths(projects) ==> UniquePaths(ExistingProjects(projects, host))
  {
    if UniquePaths(projects) {
      ExistingProjectsComplete(projects, host);
      SubsequenceKeepsUnique(ExistingProjects(projects, host), projects);
    }
  }

  /**
   * `Action::ConfigLoaded`: keep the loaded projects that still exist, clamp the
   * selection, report the count; if any were dropped, log it and save the pruned
   * list; if a project is selected, read its manifest. A failed load is logged and
   * leaves the projects alone.
   */
  method ReduceConfigLoaded(state: AppState, result: Result<AppConfig>, host: Host) returns (effects: seq<Effect>)
    requires state.Valid()
    modifies state`projects, state`selectedProject, state`statusLine, state`logs
    ensures state.Valid()
    ensures result.Ok? ==>
      var kept := ExistingProjects(result.value.projects, host);
      var removed := |result.value.projects| - |kept|;
      && state.projects == kept
      && state.selectedProject == Clamp(old(state.selectedProject), |kept|)
      && state.statusLine == LoadedProjects(|kept|)
      && state.logs == (if removed > 0 then KeepLast(old(state.logs) + [LogEntry(None, RemovedMissingProjects(removed))], MAX_LOG_LINES)
                        else old(state.logs))
      && effects == (if removed > 0 then [SaveConfig(AppConfig(kept))] else [])
                    + (if kept != [] then [ReadManifest(kept[state.selectedProject].path)] else [])
    ensures result.Err? ==>
      && state.projects == old(state.projects)
      && state.selectedProject == old(state.selectedProject)
      && state.statusLine == ConfigLoadFailed
      && state.logs == KeepLast(old(state.logs) + [LogEntry(None, ConfigLoadError(result.error))], MAX_LOG_LINES)
      && effects == []
    ensures result.Ok? && UniquePaths(result.value.projects) ==> UniquePaths(state.projects)
    ensures LaunchesNothing(effects)
  {
    match result
    case Ok(config) =>
      effects := AdoptLoadedConfig(state, config, host);
    case Err(err) =>
      state.PushLog(None, ConfigLoadError(err));
      state.statusLine := ConfigLoadFailed;
      effects := [];
  }

  /** Replace the project list and clamp the project selection to it. */
  method ReplaceProjects(state: AppState, projects: seq<ProjectMeta>)
    requires state.Valid()
    modifies state`projects, state`selectedProject
    ensures state.Valid()
    ensures state.projects == projects
    ensures state.selectedProject == Clamp(old(state.selectedProject), |projects|)
  {
    state.projects := projects;
    state.SelectedProjectClamped();
  }

  /** The `Ok` branch of `Action::ConfigLoaded`. */
  method AdoptLoadedConfig(state: AppState, config: AppConfig, host: Host) returns (effects: seq<Effect>)
    requires state.Valid()
    modifies state`projects, state`selectedProject, state`statusLine, state`logs
    ensures state.Valid()
    ensures var kept := ExistingProjects(config.projects, host);
      var removed := |config.projects| - |kept|;
      && state.projects == kept
      && state.selectedProject == Clamp(old(state.selectedProject), |kept|)
      && state.statusLine == LoadedProjects(|kept|)
      && state.logs == (if removed > 0 then KeepLast(old(state.logs) + [LogEntry(None, RemovedMissingProjects(removed))], MAX_LOG_LINES)
                        else old(state.logs))
      && effects == (if removed > 0 then [SaveConfig(AppConfig(kept))] else [])
                    + (if kept != [] then [ReadManifest(kept[state.selectedProject].path)] else [])
    ensures UniquePaths(config.projects) ==> UniquePaths(state.projects)
    ensures LaunchesNothing(effects)
  {
    var originalCount := |config.projects|;
    ReplaceProjects(state, ExistingProjects(config.projects, host));
    var removed := SaturatingSub(originalCount, |state.projects|);
    state.statusLine := LoadedProjects(|state.projects|);
    var save := [];
    if removed > 0 {
      state.PushLog(None, RemovedMissingProjects(removed));
      save := [SaveConfig(AppConfig(state.projects))];
    }
    var read := [];
    var selected := state.SelectedProject();
    if selected.Some? {
      read := [ReadManifest(selected.value.path)];
    }
    effects := save + read;
    LaunchesNothingAppend(save, read);
    ExistingProjectsKeepsUnique(config.projects, host);
  }

  /** `Action::ConfigSaved`: a failed save is logged and reported; a successful one changes nothing. */
  method ReduceConfigSaved(state: AppState, result: Result<()>) returns (effects: seq<Effect>)
    requires state.Valid()
    modifies state`statusLine, state`logs
    ensures state.Valid()
    ensures result.Ok? ==> state.statusLine == old(state.statusLine) && state.logs == old(state.logs)
    ensures result.Err? ==>
      && state.statusLine == ConfigSaveFailed
      && state.logs == KeepLast(old(state.logs) + [LogEntry(None, ConfigSaveError(result.error))], MAX_LOG_LINES)
    ensures effects == []
  {
    if result.Err? {
      state.PushLog(None, ConfigSaveError(result.error));
      state.statusLine := ConfigSaveFailed;
    }
    effects := [];
  }

  /**
   * Track one more project and select it (`projects.push(..)` followed by
   * `selected_project = projects.len() - 1`); a path not tracked yet keeps the paths unique.
   */
  method TrackProject(state: AppState, project: ProjectMeta)
    requires state.Valid()
    requires !HasPath(state.projects, project.path)
    modifies state`projects, state`selectedProject
    ensures state.Valid()
    ensures state.projects == old(state.projects) + [project]
    ensures state.selectedProject == |old(state.projects)|
    ensures UniquePaths(old(state.projects)) ==> UniquePaths(state.projects)
  {
    if UniquePaths(state.projects) {
      AppendFreshPathKeepsUnique(state.projects, project);
    }
    state.projects := state.projects + [project];
    state.selectedProject := |state.projects| - 1;
  }

  /** The display name of a project found at `path`: its last component, or the whole path. */
  function DisplayNameFor(path: Path, host: Host): (r: string)
    ensures host.FileName(path).Some? && host.FileName(path).value != [] ==> r == host.FileName(path).value
    ensures host.FileName(path).None? || host.FileName(path).value == [] ==> r == path.text
    ensures path.text != [] ==> r != []
  {
    match host.FileName(path)
    case Some(name) => if name != [] then name else path.text
    case None => path.text
  }

  /** The record a folder scan adds for a newly found path. */
  function ScannedProject(path: Path, host: Host): ProjectMeta {
    ProjectMeta(path, DisplayNameFor(path, host), [], None)
  }

  /** The project list after the scan has visited `paths`: each untracked path is added once, in order. */
  function MergeScanned(projects: seq<ProjectMeta>, paths: seq<Path>, host: Host): seq<ProjectMeta>
    decreases |paths|
  {
    if paths == [] then projects
    else
      var merged := MergeScanned(projects, paths[..|paths| - 1], host);
      var path := paths[|paths| - 1];
      if HasPath(merged, path) then merged else merged + [ScannedProject(path, host)]
  }

  /** The folder scan only appends: the old list is a prefix of the merged one. */
  lemma {:induction false} MergeScannedPrefix(projects: seq<ProjectMeta>, paths: seq<Path>, host: Host)
    ensures |projects| <= |MergeScanned(projects, paths, host)|
    ensures MergeScanned(projects, paths, host)[..|projects|] == projects
    decreases |paths|
  {
    if paths != [] {
      var init := paths[..|paths| - 1];
      MergeScannedPrefix(projects, init, host);
      var before := MergeScanned(projects, init, host);
      var merged := MergeScanned(projects, paths, host);
      if merged != before {
        assert merged[..|projects|] == before[..|projects|];
      }
    }
  }

  /**
   * Every record the folder scan appends is the record for one of the scanned paths,
   * and that path was not tracked before the scan.
   */
  lemma {:induction false} MergeScannedAddsScanned(projects: seq<ProjectMeta>, paths: seq<Path>, host: Host)
    ensures var merged := MergeScanned(projects, paths, host);
      forall k :: |projects| <= k < |merged| ==>
        merged[k] == ScannedProject(merged[k].path, host) && merged[k].path in paths && !HasPath(projects, merged[k].path)
    decreases |paths|
  {
    if paths != [] {
      var init := paths[..|paths| - 1];
      MergeScannedAddsScanned(projects, init, host);
      MergeScannedPrefix(projects, init, host);
      var before := MergeScanned(projects, init, host);
      var merged := MergeScanned(projects, paths, host);
      assert forall x :: x in init ==> x in paths;
      if merged != before {
        var path := paths[|paths| - 1];
        assert merged == before + [ScannedProject(path, host)];
        forall m | 0 <= m < |projects| ensures projects[m].path != path {
          assert before[m] == projects[m];
        }
      }
    }
  }

  /** After the folder scan every scanned path is tracked. */
  lemma {:induction false} MergeScannedCovers(projects: seq<ProjectMeta>, paths: seq<Path>, host: Host)
    ensures forall k :: 0 <= k < |paths| ==> HasPath(MergeScanned(projects, paths, host), paths[k])
    decreases |paths|
  {
    if paths != [] {
      var init := paths[..|paths| - 1];
      var path := paths[|paths| - 1];
      MergeScannedCovers(projects, init, host);
      var before := MergeScanned(projects, init, host);
      var merged := MergeScanned(projects, paths, host);
      forall k | 0 <= k < |paths| ensures HasPath(merged, paths[k]) {
        if k < |init| {
          assert init[k] == paths[k];
          var m :| 0 <= m < |before| && before[m].path == init[k];
          assert merged[m] == before[m];
        } else if merged != before {
          assert merged[|before|].path == path;
        }
      }
    }
  }

  /** The folder scan keeps the project paths unique, repeats within the scan included. */
  lemma {:induction false} MergeScannedKeepsUnique(projects: seq<ProjectMeta>, paths: seq<Path>, host: Host)
    requires UniquePaths(projects)
    ensures UniquePaths(MergeScanned(projects, paths, host))
    decreases |paths|
  {
    if paths != [] {
      var init := paths[..|paths| - 1];
      MergeScannedKeepsUnique(projects, init, host);
      var before := MergeScanned(projects, init, host);
      var path := paths[|paths| - 1];
      if !HasPath(before, path) {
        AppendFreshPathKeepsUnique(before, ScannedProject(path, host));
      }
    }
  }

  /** The loop of `Action::FolderScanned`: append each scanned path that is not tracked yet, counting them. */
  method AddScannedProjects(state: AppState, paths: seq<Path>, host: Host) returns (added: nat)
    modifies state`projects
    ensures state.projects == MergeScanned(old(state.projects), paths, host)
    ensures |old(state.projects)| + added == |state.projects|
  {
    added := 0;
    var i := 0;
    while i < |paths|
      invariant 0 <= i <= |paths|
      invariant state.projects == MergeScanned(old(state.projects), paths[..i], host)
      invariant |old(state.projects)| + added == |state.projects|
    {
      var path := paths[i];
      assert paths[..i + 1][..i] == paths[..i];
      if !HasPath(state.projects, path) {
        state.projects := state.projects + [ScannedProject(path, host)];
        added := added + 1;
      }
      i := i + 1;
    }
    assert paths[..i] == paths;
  }

  /** The projects half of `Action::FolderScanned`: merge the scanned paths, then clamp the selection. */
  method AdoptScannedFolder(state: AppState, paths: seq<Path>, host: Host) returns (added: nat)
    requires state.Valid()
    modifies state`projects, state`selectedProject
    ensures state.Valid()
    ensures state.projects == MergeScanned(old(state.projects), paths, host)
    ensures |old(state.projects)| + added == |state.projects|
    ensures state.selectedProject == Clamp(old(state.selectedProject), |state.projects|)
    ensures UniquePaths(old(state.projects)) ==> UniquePaths(state.projects)
  {
    added := AddScannedProjects(state, paths, host);
    if UniquePaths(old(state.projects)) {
      MergeScannedKeepsUnique(old(state.projects), paths, host);
    }
    state.SelectedProjectClamped();
  }

  /**
   * `Action::FolderScanned`: add every scanned path that is not tracked yet, clamp the
   * selection, report how many were added and save the list. A failed scan is
   * logged and reported.
   */
  method ReduceFolderScanned(state: AppState, result: Result<seq<Path>>, host: Host) returns (effects: seq<Effect>)
    requires state.Valid()
    modifies state`projects, state`selectedProject, state`statusLine, state`logs
    ensures state.Valid()
    ensures result.Ok? ==>
      && |old(state.projects)| <= |state.projects|
      && state.projects == MergeScanned(old(state.projects), result.value, host)
      && state.selectedProject == Clamp(old(state.selectedProject), |state.projects|)
      && state.statusLine == FolderScanComplete(|state.projects| - |old(state.projects)|)
      && state.logs == old(state.logs)
      && effects == [SaveConfig(AppConfig(state.projects))]
    ensures result.Err? ==>
      && state.projects == old(state.projects)
      && state.selectedProject == old(state.selectedProject)
      && state.statusLine == FolderScanFailed
      && state.logs == KeepLast(old(state.logs) + [LogEntry(None, FolderScanError(result.error))], MAX_LOG_LINES)
      && effects == []
    ensures UniquePaths(old(state.projects)) ==> UniquePaths(state.projects)
    ensures LaunchesNothing(effects)
  {
    match result
    case Ok(paths) =>
      var added := AdoptScannedFolder(state, paths, host);
      state.statusLine := FolderScanComplete(added);
      effects := [SaveConfig(AppConfig(state.projects))];
    case Err(err) =>
      state.statusLine := FolderScanFailed;
      state.PushLog(None, FolderScanError(err));
      effects := [];
  }

  /**
   * `Action::AvailablePackagesLoaded`: replace the package list and clamp its
   * selection against the filtered view; a failed load is logged and reported.
   */
  method ReduceAvailablePackagesLoaded(state: AppState, result: Result<seq<AvailablePackage>>) returns (effects: seq<Effect>)
    requires state.Valid()
    modifies state`availablePackages, state`selectedAvailablePackage, state`statusLine, state`logs
    ensures state.Valid()
    ensures result.Ok? ==>
      && state.availablePackages == result.value
      && state.selectedAvailablePackage == Clamp(old(state.selectedAvailablePackage), |state.FilteredAvailablePackages()|)
      && state.statusLine == LoadedAvailablePackages(|result.value|)
      && state.logs == old(state.logs)
    ensures result.Err? ==>
      && state.availablePackages == old(state.availablePackages)
      && state.selectedAvailablePackage == old(state.selectedAvailablePackage)
      && state.statusLine == AvailablePackageLoadFailed
      && state.logs == KeepLast(old(state.logs) + [LogEntry(None, PackagesLoadError(result.error))], MAX_LOG_LINES)
    ensures effects == []
  {
    effects := [];
    match result
    case Ok(packages) =>
      state.availablePackages := packages;
      state.SelectedAvailablePackageClamped();
      state.statusLine := LoadedAvailablePackages(|state.availablePackages|);
    case Err(err) =>
      state.PushLog(None, PackagesLoadError(err));
      state.statusLine := AvailablePackageLoadFailed;
  }

  /**
   * `Action::ManifestLoaded`: show the loaded manifest and clamp its selection; on a
   * failure drop the manifest, reset the selection and log the error.
   */
  method ReduceManifestLoaded(state: AppState, result: Result<ManifestSummary>) returns (effects: seq<Effect>)
    requires state.Valid()
    modifies state`selectedProjectManifest, state`selectedManifestPackage, state`logs
    ensures state.Valid()
    ensures result.Ok? ==>
      && state.selectedProjectManifest == Some(result.value)
      && state.selectedManifestPackage == Clamp(old(state.selectedManifestPackage), |result.value.packages|)
      && state.logs == old(state.logs)
    ensures result.Err? ==>
      && state.selectedProjectManifest == None
      && state.selectedManifestPackage == 0
      && state.logs == KeepLast(old(state.logs) + [LogEntry(None, ManifestError(result.error))], MAX_LOG_LINES)
    ensures effects == []
  {
    effects := [];
    match result
    case Ok(summary) =>
      state.selectedProjectManifest := Some(summary);
      state.SelectedManifestPackageClamped();
    case Err(err) =>
      state.selectedProjectManifest := None;
      state.selectedManifestPackage := 0;
      state.PushLog(None, ManifestError(err));
  }

  /** The log prefix of an output stream. */
  function StreamPrefix(stream: OutputStream): string {
    match stream
    case Stdout => "out"
    case Stderr => "err"
  }

  /**
   * The system checks after a line of output: standard output of the `vpm --version`
   * task is the `vpm` version, and of the `dotnet --version` task the `dotnet` version.
   */
  function ChecksAfterOutput(checks: SystemChecks, tasks: seq<TaskRecord>, id: nat, stream: OutputStream, line: string): (r: SystemChecks)
    ensures r.hubCheck == checks.hubCheck && r.unityCheck == checks.unityCheck && r.unityList == checks.unityList
    ensures r.vpmVersion == if stream == Stdout && TaskIsLabel(tasks, id, "vpm --version") then Some(line) else checks.vpmVersion
    ensures r.dotnetVersion == if stream == Stdout && TaskIsLabel(tasks, id, "dotnet --version") then Some(line) else checks.dotnetVersion
  {
    if stream == Stdout && TaskIsLabel(tasks, id, "vpm --version") then checks.(vpmVersion := Some(line))
    else if stream == Stdout && TaskIsLabel(tasks, id, "dotnet --version") then checks.(dotnetVersion := Some(line))
    else checks
  }

  /** `Action::TaskOutput`: log the line under its task and record tool versions. */
  method ReduceTaskOutput(state: AppState, id: nat, stream: OutputStream, line: string) returns (effects: seq<Effect>)
    requires state.Valid()
    modifies state`logs, state`systemChecks
    ensures state.Valid()
    ensures state.logs == KeepLast(old(state.logs) + [LogEntry(Some(id), TaskLine(id, StreamPrefix(stream), line))], MAX_LOG_LINES)
    ensures state.systemChecks == ChecksAfterOutput(old(state.systemChecks), state.tasks, id, stream, line)
    ensures effects == []
  {
    state.PushLog(Some(id), TaskLine(id, StreamPrefix(stream), line));
    if stream == Stdout {
      if TaskIsLabel(state.tasks, id, "vpm --version") {
        state.systemChecks := state.systemChecks.(vpmVersion := Some(line));
      } else if TaskIsLabel(state.tasks, id, "dotnet --version") {
        state.systemChecks := state.systemChecks.(dotnetVersion := Some(line));
      }
    }
    effects := [];
  }

  // ---------------------------------------------------------------------------
  // `Action::TaskDone`
  // ---------------------------------------------------------------------------

  /** The record a completion leaves behind: its terminal state, with the exit code and error copied. */
  function Completed(task: TaskRecord, success: bool, cancelled: bool, exitCode: Option<int>, error: Option<string>): (r: TaskRecord)
    ensures r.id == task.id && r.title == task.title
    ensures r.refreshManifestPath == task.refreshManifestPath && r.pendingAddProject == task.pendingAddProject
    ensures r.state != Running
  {
    task.(exitCode := exitCode, error := error, state := TerminalState(success, cancelled))
  }

  /** The task list after a completion: the first record with the id is completed, if there is one. */
  function TasksAfterDone(
    tasks: seq<TaskRecord>, id: nat, success: bool, cancelled: bool, exitCode: Option<int>, error: Option<string>)
    : seq<TaskRecord>
  {
    match FindTask(tasks, id)
    case Some(i) => tasks[i := Completed(tasks[i], success, cancelled, exitCode, error)]
    case None => tasks
  }

  /**
   * A completion touches only the record with its id: the list keeps its length,
   * every record its id and title, every other record everything; with fresh ids the
   * record with the id is the completed one, and ids stay fresh. An unknown id
   * changes nothing.
   */
  lemma TasksAfterDoneSpec(
    tasks: seq<TaskRecord>, nextId: nat, id: nat, success: bool, cancelled: bool, exitCode: Option<int>, error: Option<string>)
    ensures var r := TasksAfterDone(tasks, id, success, cancelled, exitCode, error);
      && |r| == |tasks|
      && (forall k :: 0 <= k < |tasks| ==> r[k].id == tasks[k].id && r[k].title == tasks[k].title)
      && (forall k :: 0 <= k < |tasks| && tasks[k].id != id ==> r[k] == tasks[k])
      && ((forall k :: 0 <= k < |tasks| ==> tasks[k].id != id) ==> r == tasks)
      && (IdsFresh(tasks, nextId) ==>
            && IdsFresh(r, nextId)
            && forall k :: 0 <= k < |tasks| && tasks[k].id == id ==>
                 r[k] == Completed(tasks[k], success, cancelled, exitCode, error))
  {
    var r := TasksAfterDone(tasks, id, success, cancelled, exitCode, error);
    if IdsFresh(tasks, nextId) {
      forall k | 0 <= k < |tasks| && tasks[k].id == id
        ensures r[k] == Completed(tasks[k], success, cancelled, exitCode, error)
      {
        FindTaskUnique(tasks, nextId, id, k);
      }
    }
  }

  /** `logs.iter().filter(|l| l.task_id == Some(id)).map(|l| l.text)`. */
  function TaskLogTexts(logs: seq<LogEntry>, id: nat): (r: seq<LogText>)
    ensures |r| <= |logs|
  {
    if logs == [] then []
    else
      var rest := TaskLogTexts(logs[1..], id);
      if logs[0].taskId == Some(id) then [logs[0].text] + rest else rest
  }

  /** The collected lines are exactly the texts the log holds under the task's id. */
  lemma {:induction false} TaskLogTextsSpec(logs: seq<LogEntry>, id: nat)
    ensures forall x :: x in TaskLogTexts(logs, id) <==>
      exists k :: 0 <= k < |logs| && logs[k].taskId == Some(id) && logs[k].text == x
    decreases |logs|
  {
    if logs != [] {
      TaskLogTextsSpec(logs[1..], id);
      forall x | x in TaskLogTexts(logs[1..], id)
        ensures exists k :: 0 <= k < |logs| && logs[k].taskId == Some(id) && logs[k].text == x
      {
        var k :| 0 <= k < |logs[1..]| && logs[1..][k].taskId == Some(id) && logs[1..][k].text == x;
        assert logs[k + 1] == logs[1..][k];
      }
      forall k | 0 <= k < |logs| && logs[k].taskId == Some(id)
        ensures logs[k].text in TaskLogTexts(logs, id)
      {
        if k > 0 {
          assert logs[1..][k - 1] == logs[k];
        }
      }
    }
  }

  /** The texts of the log, in order. */
  function Texts(logs: seq<LogEntry>): seq<LogText>
    decreases |logs|
  {
    if logs == [] then [] else [logs[0].text] + Texts(logs[1..])
  }

  /** The collected lines keep the order they have in the log. */
  lemma {:induction false} TaskLogTextsInOrder(logs: seq<LogEntry>, id: nat)
    ensures Subsequence(TaskLogTexts(logs, id), Texts(logs))
    decreases |logs|
  {
    if logs != [] {
      TaskLogTextsInOrder(logs[1..], id);
      var rest := TaskLogTexts(logs[1..], id);
      var all := Texts(logs);
      assert all[0] == logs[0].text && all[1..] == Texts(logs[1..]);
      if logs[0].taskId == Some(id) {
        var r := TaskLogTexts(logs, id);
        assert r[0] == all[0] && r[1..] == rest;
      }
    }
  }

  /** Every line filed under the task is collected, as often as the log holds it, and no other. */
  lemma {:induction false} TaskLogTextsCounts(logs: seq<LogEntry>, id: nat)
    ensures forall t :: multiset(TaskLogTexts(logs, id))[t] == multiset(logs)[LogEntry(Some(id), t)]
    decreases |logs|
  {
    if logs != [] {
      TaskLogTextsCounts(logs[1..], id);
      assert logs == [logs[0]] + logs[1..];
    }
  }

  /** The system checks after a task completed as `task` (already in its terminal state). */
  function ChecksAfterDone(checks: SystemChecks, task: TaskRecord, success: bool, logs: seq<LogEntry>): SystemChecks
  {
    SystemChecks(
      if task.title == "dotnet --version" && !success then Some("not installed") else checks.dotnetVersion,
      if task.title == "vpm --version" && !success then Some("not installed") else checks.vpmVersion,
      if task.title == "vpm check hub" then Some(TaskStateText(task)) else checks.hubCheck,
      if task.title == "vpm check unity" then Some(TaskStateText(task)) else checks.unityCheck,
      if task.title == "vpm list unity" then TaskLogTexts(logs, task.id) else checks.unityList)
  }

  /**
   * Only the check named by the task's title changes: a failed `vpm --version` /
   * `dotnet --version` marks the tool "not installed", a hub or Unity check records
   * the task's state text, `vpm list unity` collects the task's log lines; a success
   * never marks a tool missing, and any other title leaves the checks alone.
   */
  lemma ChecksAfterDoneSpec(checks: SystemChecks, task: TaskRecord, success: bool, logs: seq<LogEntry>)
    ensures var r := ChecksAfterDone(checks, task, success, logs);
      && (task.title !in {"vpm --version", "dotnet --version", "vpm check hub", "vpm check unity", "vpm list unity"} ==> r == checks)
      && (success ==> r.vpmVersion == checks.vpmVersion && r.dotnetVersion == checks.dotnetVersion)
      && (r.vpmVersion != checks.vpmVersion ==> task.title == "vpm --version" && r.vpmVersion == Some("not installed"))
      && (r.dotnetVersion != checks.dotnetVersion ==> task.title == "dotnet --version" && r.dotnetVersion == Some("not installed"))
      && (task.title == "vpm check hub" ==> r.hubCheck == Some(TaskStateText(task)))
      && (task.title == "vpm check unity" ==> r.unityCheck == Some(TaskStateText(task)))
      && (task.title == "vpm list unity" ==> r.unityList == TaskLogTexts(logs, task.id))
      && (task.title != "vpm check hub" ==> r.hubCheck == checks.hubCheck)
      && (task.title != "vpm check unity" ==> r.unityCheck == checks.unityCheck)
      && (task.title != "vpm list unity" ==> r.unityList == checks.unityList)
  {
  }

  /** A completion adopts its pending project: on success, when the path exists and is not tracked yet. */
  predicate Adopts(task: TaskRecord, success: bool, projects: seq<ProjectMeta>, host: Host) {
    && success
    && task.pendingAddProject.Some?
    && host.PathExists(task.pendingAddProject.value.path)
    && !HasPath(projects, task.pendingAddProject.value.path)
  }

  /** The warning a successful completion defers when its pending project's path does not exist. */
  function NotCreated(task: TaskRecord, success: bool, host: Host): (r: Option<LogText>)
    ensures r.Some? <==> success && task.pendingAddProject.Some? && !host.PathExists(task.pendingAddProject.value.path)
    ensures r.Some? ==> r.value == ProjectPathNotCreated(task.pendingAddProject.value.path)
  {
    if success && task.pendingAddProject.Some? && !host.PathExists(task.pendingAddProject.value.path)
    then Some(ProjectPathNotCreated(task.pendingAddProject.value.path))
    else None
  }

  /** A successful install or update of the `vpm` tool re-runs `vpm --version`. */
  predicate Rechecks(task: TaskRecord, success: bool) {
    success && (task.title == "dotnet tool install vpm" || task.title == "dotnet tool update vpm")
  }

  /**
   * The effects a found completion asks for before any re-check, in order: a package
   * reload after adding a repository, a config save after adopting a project, and a
   * manifest read for the record's refresh path.
   */
  function FoundEffects(task: TaskRecord, success: bool, projects: seq<ProjectMeta>, host: Host): seq<Effect>
  {
    var reload := if StartsWith(task.title, "vpm add repo ") then [LoadAvailablePackages] else [];
    var save := if Adopts(task, success, projects, host)
                then [SaveConfig(AppConfig(projects + [task.pendingAddProject.value]))] else [];
    var read := if task.refreshManifestPath.Some? then [ReadManifest(task.refreshManifestPath.value)] else [];
    reload + save + read
  }

  /**
   * A found completion launches nothing by itself; it reloads the packages exactly after
   * adding a repository, saves the config exactly when it adopts the project, and reads
   * a manifest exactly when the record names one.
   */
  lemma FoundEffectsSpec(task: TaskRecord, success: bool, projects: seq<ProjectMeta>, host: Host)
    ensures var r := FoundEffects(task, success, projects, host);
      && LaunchesNothing(r)
      && (LoadAvailablePackages in r <==> StartsWith(task.title, "vpm add repo "))
      && ((exists c :: SaveConfig(c) in r) <==> Adopts(task, success, projects, host))
      && ((exists p :: ReadManifest(p) in r) <==> task.refreshManifestPath.Some?)
  {
    var reload := if StartsWith(task.title, "vpm add repo ") then [LoadAvailablePackages] else [];
    var save := if Adopts(task, success, projects, host)
                then [SaveConfig(AppConfig(projects + [task.pendingAddProject.value]))] else [];
    var read := if task.refreshManifestPath.Some? then [ReadManifest(task.refreshManifestPath.value)] else [];
    assert FoundEffects(task, success, projects, host) == reload + save + read;
    assert forall c :: SaveConfig(c) !in reload + read;
    assert forall p :: ReadManifest(p) !in reload + save;
  }

  /**
   * The pending-project step of a completion: adopt the project when `Adopts` holds,
   * selecting it and saving the list; report a path that does not exist.
   */
  method AdoptPendingProject(state: AppState, task: TaskRecord, success: bool, host: Host)
    returns (save: seq<Effect>, deferred: Option<LogText>)
    requires state.Valid()
    modifies state`projects, state`selectedProject
    ensures state.Valid()
    ensures Adopts(task, success, old(state.projects), host) ==>
      && state.projects == old(state.projects) + [task.pendingAddProject.value]
      && state.selectedProject == |old(state.projects)|
      && save == [SaveConfig(AppConfig(state.projects))]
    ensures !Adopts(task, success, old(state.projects), host) ==>
      && state.projects == old(state.projects)
      && state.selectedProject == old(state.selectedProject)
      && save == []
    ensures deferred == NotCreated(task, success, host)
    ensures UniquePaths(old(state.projects)) ==> UniquePaths(state.projects)
  {
    save := [];
    deferred := None;
    if success && task.pendingAddProject.Some? {
      var project := task.pendingAddProject.value;
      if host.PathExists(project.path) {
        if !HasPath(state.projects, project.path) {
          TrackProject(state, project);
          save := [SaveConfig(AppConfig(state.projects))];
        }
      } else {
        deferred := Some(ProjectPathNotCreated(project.path));
      }
    }
  }

  /** The system-check updates of `Action::TaskDone`, for the completed record `task`. */
  method RecordChecksAfterDone(state: AppState, task: TaskRecord, success: bool)
    modifies state`systemChecks
    ensures state.systemChecks == ChecksAfterDone(old(state.systemChecks), task, success, state.logs)
  {
    var checks := state.systemChecks;
    if task.title == "vpm --version" && !success {
      checks := checks.(vpmVersion := Some("not installed"));
    }
    if task.title == "dotnet --version" && !success {
      checks := checks.(dotnetVersion := Some("not installed"));
    }
    if task.title == "vpm check hub" {
      checks := checks.(hubCheck := Some(TaskStateText(task)));
    }
    if task.title == "vpm check unity" {
      checks := checks.(unityCheck := Some(TaskStateText(task)));
    }
    if task.title == "vpm list unity" {
      checks := checks.(unityList := TaskLogTexts(state.logs, task.id));
    }
    state.systemChecks := checks;
  }

  /** Complete the record at `i` and update the system checks for it. */
  method CompleteRecord(
    state: AppState, i: nat, success: bool, cancelled: bool, exitCode: Option<int>, error: Option<string>)
    returns (task: TaskRecord)
    requires i < |state.tasks|
    modifies state`tasks, state`systemChecks
    ensures task == Completed(old(state.tasks[i]), success, cancelled, exitCode, error)
    ensures state.tasks == old(state.tasks)[i := task]
    ensures state.systemChecks == ChecksAfterDone(old(state.systemChecks), task, success, state.logs)
  {
    task := state.tasks[i].(exitCode := exitCode, error := error, state := TerminalState(success, cancelled));
    state.tasks := state.tasks[i := task];
    RecordChecksAfterDone(state, task, success);
  }

  /**
   * The follow-ups of a completed record, in order: a package reload after adding a
   * repository, the pending-project adoption and its config save, and the manifest read.
   */
  method CollectFollowUps(state: AppState, task: TaskRecord, success: bool, host: Host)
    returns (effects: seq<Effect>, deferred: Option<LogText>)
    requires state.Valid()
    modifies state`projects, state`selectedProject
    ensures state.Valid()
    ensures state.projects == (if Adopts(task, success, old(state.projects), host)
                               then old(state.projects) + [task.pendingAddProject.value] else old(state.projects))
    ensures state.selectedProject == (if Adopts(task, success, old(state.projects), host)
                                      then |old(state.projects)| else old(state.selectedProject))
    ensures effects == FoundEffects(task, success, old(state.projects), host)
    ensures deferred == NotCreated(task, success, host)
    ensures UniquePaths(old(state.projects)) ==> UniquePaths(state.projects)
  {
    var reload := [];
    if StartsWith(task.title, "vpm add repo ") {
      reload := [LoadAvailablePackages];
    }
    var save;
    save, deferred := AdoptPendingProject(state, task, success, host);
    var read := [];
    if task.refreshManifestPath.Some? {
      read := [ReadManifest(task.refreshManifestPath.value)];
    }
    effects := reload + save + read;
  }

  /**
   * The found-record part of `Action::TaskDone`: complete the record, update the system
   * checks, collect the follow-up effects, adopt the pending project.
   */
  method ResolveTask(
    state: AppState, i: nat, success: bool, cancelled: bool, exitCode: Option<int>, error: Option<string>, host: Host)
    returns (effects: seq<Effect>, deferred: Option<LogText>, recheck: bool)
    requires state.Valid()
    requires i < |state.tasks|
    modifies state`tasks, state`systemChecks, state`projects, state`selectedProject
    ensures state.Valid()
    ensures var done := Completed(old(state.tasks[i]), success, cancelled, exitCode, error);
      && state.tasks == old(state.tasks)[i := done]
      && state.systemChecks == ChecksAfterDone(old(state.systemChecks), done, success, state.logs)
      && state.projects == (if Adopts(done, success, old(state.projects), host)
                            then old(state.projects) + [done.pendingAddProject.value] else old(state.projects))
      && state.selectedProject == (if Adopts(done, success, old(state.projects), host)
                                   then |old(state.projects)| else old(state.selectedProject))
      && effects == FoundEffects(done, success, old(state.projects), host)
      && deferred == NotCreated(done, success, host)
      && recheck == Rechecks(done, success)
    ensures UniquePaths(old(state.projects)) ==> UniquePaths(state.projects)
  {
    var task := CompleteRecord(state, i, success, cancelled, exitCode, error);
    effects, deferred := CollectFollowUps(state, task, success, host);
    recheck := (task.title == "dotnet tool install vpm" || task.title == "dotnet tool update vpm") && success;
  }

  /** The optional log line for a deferred warning. */
  function Warned(id: nat, deferred: Option<LogText>): seq<LogEntry> {
    if deferred.Some? then [LogEntry(Some(id), deferred.value)] else []
  }

  /** The optional log line announcing the re-check launched under `next`. */
  function Started(recheck: bool, next: nat): seq<LogEntry> {
    if recheck then [LogEntry(Some(next), TaskStarted(next, "vpm --version"))] else []
  }

  /**
   * The lines a completion adds to the log, in order: the deferred warning, the start
   * of the re-check it launched, and the echo of the status line.
   */
  function DoneLines(id: nat, deferred: Option<LogText>, recheck: bool, next: nat, status: Status): seq<LogEntry> {
    Warned(id, deferred) + Started(recheck, next) + [LogEntry(Some(id), StatusEcho(status))]
  }

  /** Pushing the completion's lines one by one is pushing `DoneLines` at once. */
  lemma DoneLinesPushed(logs: seq<LogEntry>, id: nat, deferred: Option<LogText>, recheck: bool, next: nat, status: Status)
    ensures KeepLast(KeepLast(KeepLast(logs + Warned(id, deferred), MAX_LOG_LINES) + Started(recheck, next), MAX_LOG_LINES)
                     + [LogEntry(Some(id), StatusEcho(status))], MAX_LOG_LINES)
         == KeepLast(logs + DoneLines(id, deferred, recheck, next, status), MAX_LOG_LINES)
  {
    var a := logs + Warned(id, deferred);
    var st := Started(recheck, next);
    var e := [LogEntry(Some(id), StatusEcho(status))];
    calc {
      KeepLast(KeepLast(KeepLast(a, MAX_LOG_LINES) + st, MAX_LOG_LINES) + e, MAX_LOG_LINES);
      { KeepLastOfKeepLast(a, st, MAX_LOG_LINES); }
      KeepLast(KeepLast(a + st, MAX_LOG_LINES) + e, MAX_LOG_LINES);
      { KeepLastOfKeepLast(a + st, e, MAX_LOG_LINES); }
      KeepLast(a + st + e, MAX_LOG_LINES);
      { assert a + st + e == logs + (Warned(id, deferred) + st + e); }
      KeepLast(logs + DoneLines(id, deferred, recheck, next, status), MAX_LOG_LINES);
    }
  }

  /** Log the warning a completion deferred, if any. */
  method PushDeferred(state: AppState, id: nat, deferred: Option<LogText>)
    requires state.Valid()
    modifies state`logs
    ensures state.Valid()
    ensures state.logs == KeepLast(old(state.logs) + Warned(id, deferred), MAX_LOG_LINES)
  {
    if deferred.Some? {
      state.PushLog(Some(id), deferred.value);
    } else {
      assert old(state.logs) + Warned(id, deferred) == state.logs;
    }
  }

  /** Launch the `vpm --version` re-check if asked to. */
  method RecheckVpm(state: AppState, recheck: bool) returns (launch: seq<Effect>)
    requires state.Valid()
    modifies state`nextTaskId, state`tasks, state`statusLine, state`logs
    ensures state.Valid()
    ensures var next0 := old(state.nextTaskId);
      && state.tasks == old(state.tasks) + (if recheck then [NewTask(next0, "vpm --version", None, None)] else [])
      && state.nextTaskId == (if recheck then SaturatingAdd(next0, 1, U64_MAX) else next0)
      && launch == (if recheck then [RunCommand(next0, "vpm --version", "vpm", ["--version"])] else [])
      && state.logs == KeepLast(old(state.logs) + Started(recheck, next0), MAX_LOG_LINES)
    ensures !recheck ==> state.statusLine == old(state.statusLine)
    ensures Bookkept(old(state.tasks), old(state.nextTaskId), state.tasks, state.nextTaskId, launch)
  {
    launch := [];
    if recheck {
      LaunchBookkept(state.tasks, state.nextTaskId, "vpm --version", "vpm", ["--version"], None, None);
      var effect := EnqueueSystemTask(state, "vpm --version", ["--version"]);
      launch := [effect];
    } else {
      BookkeptUntouched(state.tasks, state.nextTaskId, launch);
      assert state.logs + Started(recheck, state.nextTaskId) == state.logs;
    }
  }

  /**
   * The tail of `Action::TaskDone`: log the deferred warning, launch the `vpm` re-check
   * if asked to, then report the completion on the status line and in the log.
   */
  method FinishTaskDone(state: AppState, id: nat, deferred: Option<LogText>, recheck: bool, success: bool, cancelled: bool)
    returns (launch: seq<Effect>)
    requires state.Valid()
    modifies state`logs, state`nextTaskId, state`tasks, state`statusLine
    ensures state.Valid()
    ensures var next0 := old(state.nextTaskId);
      && state.tasks == old(state.tasks) + (if recheck then [NewTask(next0, "vpm --version", None, None)] else [])
      && state.nextTaskId == (if recheck then SaturatingAdd(next0, 1, U64_MAX) else next0)
      && launch == (if recheck then [RunCommand(next0, "vpm --version", "vpm", ["--version"])] else [])
      && state.statusLine == DoneStatus(id, success, cancelled)
      && state.logs == KeepLast(old(state.logs) + DoneLines(id, deferred, recheck, next0, DoneStatus(id, success, cancelled)), MAX_LOG_LINES)
    ensures Bookkept(old(state.tasks), old(state.nextTaskId), state.tasks, state.nextTaskId, launch)
  {
    PushDeferred(state, id, deferred);
    launch := RecheckVpm(state, recheck);
    var status := DoneStatus(id, success, cancelled);
    state.statusLine := status;
    state.PushLog(Some(id), StatusEcho(status));
    DoneLinesPushed(old(state.logs), id, deferred, recheck, old(state.nextTaskId), status);
  }

  /** The follow-ups of a completion launch no command. */
  lemma FoundEffectsLaunchNothing(task: TaskRecord, success: bool, projects: seq<ProjectMeta>, host: Host)
    ensures LaunchesNothing(FoundEffects(task, success, projects, host))
  {
    FoundEffectsSpec(task, success, projects, host);
  }

  /**
   * Completing record `i` and then launching keeps the books: completion changes no id,
   * no title and the length of the list, and launches nothing.
   */
  lemma CompletionBookkept(
    t0: seq<TaskRecord>, n0: nat, i: nat, done: TaskRecord, e1: seq<Effect>, t2: seq<TaskRecord>, n2: nat, e2: seq<Effect>)
    requires i < |t0| && done.id == t0[i].id && done.title == t0[i].title
    requires LaunchesNothing(e1)
    requires Bookkept(t0[i := done], n0, t2, n2, e2)
    ensures Bookkept(t0, n0, t2, n2, e1 + e2)
  {
    var t1 := t0[i := done];
    NoCommands(e1);
    assert t1[|t0|..] == [];
    AdmittedCompose(t0, t1, t2, e1, e2);
  }

  /** `Action::TaskDone` for the record at index `i`, the first one with the id. */
  method ReduceFoundTaskDone(
    state: AppState, id: nat, i: nat, success: bool, cancelled: bool, exitCode: Option<int>, error: Option<string>, host: Host)
    returns (effects: seq<Effect>)
    requires state.Valid()
    requires i < |state.tasks|
    modifies state`tasks, state`systemChecks, state`projects, state`selectedProject
    modifies state`logs, state`nextTaskId, state`statusLine
    ensures state.Valid()
    ensures var done := Completed(old(state.tasks)[i], success, cancelled, exitCode, error);
      var next0 := old(state.nextTaskId);
      var recheck := Rechecks(done, success);
      var adopted := Adopts(done, success, old(state.projects), host);
      && state.tasks == old(state.tasks)[i := done] + (if recheck then [NewTask(next0, "vpm --version", None, None)] else [])
      && state.nextTaskId == (if recheck then SaturatingAdd(next0, 1, U64_MAX) else next0)
      && state.systemChecks == ChecksAfterDone(old(state.systemChecks), done, success, old(state.logs))
      && state.projects == (if adopted then old(state.projects) + [done.pendingAddProject.value] else old(state.projects))
      && state.selectedProject == (if adopted then |old(state.projects)| else old(state.selectedProject))
      && state.statusLine == DoneStatus(id, success, cancelled)
      && state.logs == KeepLast(old(state.logs) + DoneLines(id, NotCreated(done, success, host), recheck, next0,
                                                            DoneStatus(id, success, cancelled)), MAX_LOG_LINES)
      && effects == FoundEffects(done, success, old(state.projects), host)
                    + (if recheck then [RunCommand(next0, "vpm --version", "vpm", ["--version"])] else [])
    ensures Bookkept(old(state.tasks), old(state.nextTaskId), state.tasks, state.nextTaskId, effects)
    ensures UniquePaths(old(state.projects)) ==> UniquePaths(state.projects)
  {
    var followUps, deferred, recheck := ResolveTask(state, i, success, cancelled, exitCode, error, host);
    ghost var done := Completed(old(state.tasks)[i], success, cancelled, exitCode, error);
    FoundEffectsLaunchNothing(done, success, old(state.projects), host);
    var launch := FinishTaskDone(state, id, deferred, recheck, success, cancelled);
    effects := followUps + launch;
    CompletionBookkept(old(state.tasks), old(state.nextTaskId), i, done, followUps, state.tasks, state.nextTaskId, launch);
  }

  /** `Action::TaskDone` for an id no record carries: only the status line and its echo. */
  method ReduceUnknownTaskDone(state: AppState, id: nat, success: bool, cancelled: bool) returns (effects: seq<Effect>)
    requires state.Valid()
    modifies state`logs, state`statusLine
    ensures state.Valid()
    ensures state.statusLine == DoneStatus(id, success, cancelled)
    ensures state.logs == KeepLast(old(state.logs) + [LogEntry(Some(id), StatusEcho(DoneStatus(id, success, cancelled)))], MAX_LOG_LINES)
    ensures effects == []
  {
    var status := DoneStatus(id, success, cancelled);
    state.statusLine := status;
    state.PushLog(Some(id), StatusEcho(status));
    effects := [];
  }

  /**
   * `Action::TaskDone`: complete the first record with the id and run its follow-ups
   * (system checks, package reload, project adoption, manifest read, `vpm` re-check),
   * then report the completion. An unknown id only reports it.
   */
  method ReduceTaskDone(
    state: AppState, id: nat, success: bool, cancelled: bool, exitCode: Option<int>, error: Option<string>, host: Host)
    returns (effects: seq<Effect>)
    requires state.Valid()
    modifies state`tasks, state`systemChecks, state`projects, state`selectedProject
    modifies state`logs, state`nextTaskId, state`statusLine
    ensures state.Valid()
    ensures state.statusLine == DoneStatus(id, success, cancelled)
    ensures FindTask(old(state.tasks), id).None? ==>
      && state.tasks == old(state.tasks)
      && state.nextTaskId == old(state.nextTaskId)
      && state.systemChecks == old(state.systemChecks)
      && state.projects == old(state.projects)
      && state.selectedProject == old(state.selectedProject)
      && state.logs == KeepLast(old(state.logs) + [LogEntry(Some(id), StatusEcho(DoneStatus(id, success, cancelled)))], MAX_LOG_LINES)
      && effects == []
    ensures FindTask(old(state.tasks), id).Some? ==>
      var i := FindTask(old(state.tasks), id).value;
      var done := Completed(old(state.tasks)[i], success, cancelled, exitCode, error);
      var next0 := old(state.nextTaskId);
      var recheck := Rechecks(done, success);
      var adopted := Adopts(done, success, old(state.projects), host);
      && state.tasks == old(state.tasks)[i := done] + (if recheck then [NewTask(next0, "vpm --version", None, None)] else [])
      && state.nextTaskId == (if recheck then SaturatingAdd(next0, 1, U64_MAX) else next0)
      && state.systemChecks == ChecksAfterDone(old(state.systemChecks), done, success, old(state.logs))
      && state.projects == (if adopted then old(state.projects) + [done.pendingAddProject.value] else old(state.projects))
      && state.selectedProject == (if adopted then |old(state.projects)| else old(state.selectedProject))
      && state.logs == KeepLast(old(state.logs) + DoneLines(id, NotCreated(done, success, host), recheck, next0,
                                                            DoneStatus(id, success, cancelled)), MAX_LOG_LINES)
      && effects == FoundEffects(done, success, old(state.projects), host)
                    + (if recheck then [RunCommand(next0, "vpm --version", "vpm", ["--version"])] else [])
    ensures Bookkept(old(state.tasks), old(state.nextTaskId), state.tasks, state.nextTaskId, effects)
    ensures UniquePaths(old(state.projects)) ==> UniquePaths(state.projects)
  {
    var found := FindTask(state.tasks, id);
    if found.Some? {
      effects := ReduceFoundTaskDone(state, id, found.value, success, cancelled, exitCode, error, host);
    } else {
      effects := ReduceUnknownTaskDone(state, id, success, cancelled);
      BookkeptUntouched(state.tasks, state.nextTaskId, effects);
    }
  }
}
