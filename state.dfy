/**
 * The application state of the dashboard (src/app/state.rs): the screens, the records
 * the reducer keeps (projects, packages, tasks, log lines), and the `AppState` object
 * with its small bookkeeping operations: the bounded log, the three selection clamps,
 * the filtered views and the selection accessors.
 */
module State {
  import opened Wrappers
  import opened Platform
  import opened Text

  /** `MAX_LOG_LINES` of `push_log`. */
  const MAX_LOG_LINES: nat := 1500
  const U64_MAX: nat := 0xFFFF_FFFF_FFFF_FFFF
  const U16_MAX: nat := 0xFFFF

  /** `saturating_add` on an unsigned integer whose largest value is `max`. */
  function SaturatingAdd(x: nat, y: nat, max: nat): (r: nat)
    requires x <= max
    ensures r <= max
    ensures x + y <= max ==> r == x + y
    ensures x + y > max ==> r == max
  {
    if x + y <= max then x + y else max
  }

  /** `saturating_sub` on an unsigned integer. */
  function SaturatingSub(x: nat, y: nat): (r: nat)
    ensures r <= x
    ensures y <= x ==> r + y == x
    ensures x < y ==> r == 0
  {
    if y <= x then x - y else 0
  }

  // ---------------------------------------------------------------------------
  // Screens
  // ---------------------------------------------------------------------------

  /** The five screens, in tab order. */
  datatype Screen = New | Add | Projects | Manage | Settings {

    /** The screen the Tab / Right keys move to. */
    function Next(): Screen {
      match this
      case New => Add
      case Add => Projects
      case Projects => Manage
      case Manage => Settings
      case Settings => New
    }

    /** The screen the Left key moves to. */
    function Prev(): Screen {
      match this
      case New => Settings
      case Add => New
      case Projects => Add
      case Manage => Projects
      case Settings => Manage
    }
  }

  /** `Next` and `Prev` undo each other. */
  lemma NextPrevInverse(s: Screen)
    ensures s.Next().Prev() == s
    ensures s.Prev().Next() == s
  {
  }

  /** The screens form one cycle of length five: five steps return, fewer never do. */
  lemma NextCycle(s: Screen)
    ensures s.Next().Next().Next().Next().Next() == s
    ensures s.Next() != s && s.Next().Next() != s
    ensures s.Next().Next().Next() != s && s.Next().Next().Next().Next() != s
  {
  }

  /** The screen reached from `s` by `k` presses of Tab. */
  function Advance(s: Screen, k: nat): Screen
    decreases k
  {
    if k == 0 then s else Advance(s.Next(), k - 1)
  }

  /** `k` presses of Tab land where `k % 5` presses do. */
  lemma {:induction false} AdvanceModFive(s: Screen, k: nat)
    ensures Advance(s, k) == Advance(s, k % 5)
  {
    if k >= 5 {
      NextCycle(s);
      calc {
        Advance(s, k);
        Advance(s.Next(), k - 1);
        Advance(s.Next().Next(), k - 2);
        Advance(s.Next().Next().Next(), k - 3);
        Advance(s.Next().Next().Next().Next(), k - 4);
        Advance(s.Next().Next().Next().Next().Next(), k - 5);
        Advance(s, k - 5);
        { AdvanceModFive(s, k - 5); }
        Advance(s, (k - 5) % 5);
      }
      assert (k - 5) % 5 == k % 5;
    }
  }

  // ---------------------------------------------------------------------------
  // Records
  // ---------------------------------------------------------------------------

  datatype ProjectMeta = ProjectMeta(
    path: Path,
    displayName: string,
    tags: seq<string>,
    lastOpened: Option<string>)

  /** The persisted configuration: the tracked projects. */
  datatype AppConfig = AppConfig(projects: seq<ProjectMeta>)

  datatype PackageInfo = PackageInfo(name: string, version: string)

  datatype AvailablePackage = AvailablePackage(
    id: string,
    displayName: string,
    latestVersion: string,
    repoId: string)

  /** What was read from a project's package manifest. */
  datatype ManifestSummary = ManifestSummary(
    manifestExists: bool,
    packages: seq<PackageInfo>,
    message: Option<string>)

  datatype TaskState = Running | Success | Failed | Cancelled

  /**
   * One invocation of an external program; `title` is the source's `label` (a Dafny
   * keyword). `refreshManifestPath` and `pendingAddProject` are the continuations to
   * run when it completes.
   */
  datatype TaskRecord = TaskRecord(
    id: nat,
    title: string,
    state: TaskState,
    exitCode: Option<int>,
    error: Option<string>,
    refreshManifestPath: Option<Path>,
    pendingAddProject: Option<ProjectMeta>)

  /** The status line's messages (the text of each is not modelled, only which one it is). */
  datatype Status =
    | Ready
    | LoadedProjects(count: nat)
    | ConfigLoadFailed
    | ConfigSaveFailed
    | FolderScanComplete(added: nat)
    | FolderScanFailed
    | LoadedAvailablePackages(count: nat)
    | AvailablePackageLoadFailed
    | TaskCancelled(taskId: nat)
    | TaskFinished(taskId: nat)
    | TaskFailed(taskId: nat)
    | RunningTask(title: string)
    | ProjectPathEmpty
    | ProjectAlreadyExists
    | ProjectAdded
    | FolderPathEmpty
    | RepoUrlEmpty
    | PackageNameEmpty
    | NoProjectSelected
    | NoAvailablePackageSelected
    | NoInstalledPackageSelected
    | ManifestNotLoaded
    | NoSdkPackageFound
    | ProjectNameOrPathRequired
    | DotnetRequired

  /** The text of a log line: which message it is, with the values it shows. */
  datatype LogText =
    | RemovedMissingProjects(count: nat)
    | ConfigLoadError(error: string)
    | ConfigSaveError(error: string)
    | FolderScanError(error: string)
    | PackagesLoadError(error: string)
    | ManifestError(error: string)
    | TaskLine(taskId: nat, prefix: string, line: string)
    | ProjectPathNotCreated(path: Path)
    | TaskStarted(taskId: nat, title: string)
    | StatusEcho(status: Status)

  datatype LogEntry = LogEntry(taskId: Option<nat>, text: LogText)

  /** The results of the environment checks shown on the settings screen. */
  datatype SystemChecks = SystemChecks(
    dotnetVersion: Option<string>,
    vpmVersion: Option<string>,
    hubCheck: Option<string>,
    unityCheck: Option<string>,
    unityList: seq<LogText>)

  // ---------------------------------------------------------------------------
  // Sequences: subsequences, path uniqueness, the bounded log
  // ---------------------------------------------------------------------------

  /** `a` is `b` with some elements left out, the rest in their order. */
  predicate Subsequence<T(==)>(a: seq<T>, b: seq<T>)
    decreases |b|
  {
    || a == []
    || (b != [] && ((a[0] == b[0] && Subsequence(a[1..], b[1..])) || Subsequence(a, b[1..])))
  }

  /** Every sequence is a subsequence of itself. */
  lemma {:induction false} SubsequenceReflexive<T>(s: seq<T>)
    ensures Subsequence(s, s)
    decreases |s|
  {
    if s != [] {
      SubsequenceReflexive(s[1..]);
    }
  }

  /** `projects.iter().any(|p| p.path == path)`. */
  predicate HasPath(projects: seq<ProjectMeta>, path: Path) {
    exists k :: 0 <= k < |projects| && projects[k].path == path
  }

  /** No two tracked projects share a path. */
  predicate UniquePaths(projects: seq<ProjectMeta>) {
    forall i, j :: 0 <= i < j < |projects| ==> projects[i].path != projects[j].path
  }

  /** Appending a project whose path is not tracked yet keeps the paths unique. */
  lemma AppendFreshPathKeepsUnique(projects: seq<ProjectMeta>, p: ProjectMeta)
    requires UniquePaths(projects) && !HasPath(projects, p.path)
    ensures UniquePaths(projects + [p])
  {
  }

  /** Keeping some of the projects, in order, keeps the paths unique. */
  lemma {:induction false} SubsequenceKeepsUnique(a: seq<ProjectMeta>, b: seq<ProjectMeta>)
    requires Subsequence(a, b) && UniquePaths(b)
    ensures UniquePaths(a)
    decreases |b|
  {
    if a != [] {
      assert b != [];
      if a[0] == b[0] && Subsequence(a[1..], b[1..]) {
        SubsequenceKeepsUnique(a[1..], b[1..]);
        SubsequenceMembers(a[1..], b[1..]);
        forall j | 0 < j < |a| ensures a[0].path != a[j].path {
          assert a[j] == a[1..][j - 1];
          var m :| 0 <= m < |b[1..]| && b[1..][m] == a[j];
          assert b[m + 1] == a[j];
        }
      } else {
        SubsequenceKeepsUnique(a, b[1..]);
      }
    }
  }

  /** Every element of a subsequence is an element of the whole. */
  lemma {:induction false} SubsequenceMembers<T>(a: seq<T>, b: seq<T>)
    requires Subsequence(a, b)
    ensures forall k :: 0 <= k < |a| ==> exists m :: 0 <= m < |b| && b[m] == a[k]
    decreases |b|
  {
    if a != [] {
      if a[0] == b[0] && Subsequence(a[1..], b[1..]) {
        SubsequenceMembers(a[1..], b[1..]);
        forall k | 0 <= k < |a| ensures exists m :: 0 <= m < |b| && b[m] == a[k] {
          if k == 0 {
            assert b[0] == a[0];
          } else {
            assert a[k] == a[1..][k - 1];
            var m :| 0 <= m < |b[1..]| && b[1..][m] == a[1..][k - 1];
            assert b[m + 1] == a[k];
          }
        }
      } else {
        SubsequenceMembers(a, b[1..]);
        forall k | 0 <= k < |a| ensures exists m :: 0 <= m < |b| && b[m] == a[k] {
          var m :| 0 <= m < |b[1..]| && b[1..][m] == a[k];
          assert b[m + 1] == a[k];
        }
      }
    }
  }

  /** The last `n` elements of `s` (all of `s` when it is not longer than `n`). */
  function KeepLast<T>(s: seq<T>, n: nat): (r: seq<T>)
    ensures |r| == if |s| <= n then |s| else n
  {
    if |s| <= n then s else s[|s| - n..]
  }

  /** What `KeepLast` drops is a prefix: the kept part is a suffix of the input. */
  lemma KeepLastSuffix<T>(s: seq<T>, n: nat)
    ensures s == s[..|s| - |KeepLast(s, n)|] + KeepLast(s, n)
  {
  }

  /** The log after `push_log` of each of `entries` in turn. */
  function PushedAll(logs: seq<LogEntry>, entries: seq<LogEntry>): seq<LogEntry>
    decreases |entries|
  {
    if entries == [] then logs
    else PushedAll(KeepLast(logs + [entries[0]], MAX_LOG_LINES), entries[1..])
  }

  /** A log line pushed onto the log is its last line, and the log stays within its cap. */
  lemma PushedLogBounded(logs: seq<LogEntry>, e: LogEntry)
    ensures var r := KeepLast(logs + [e], MAX_LOG_LINES);
      |r| <= MAX_LOG_LINES && r != [] && r[|r| - 1] == e
  {
  }

  /**
   * Below the cap nothing is evicted; at the cap exactly the oldest line is:
   * the log is a FIFO over the most recent lines.
   */
  lemma PushedLogEvictsOldest(logs: seq<LogEntry>, e: LogEntry)
    requires |logs| <= MAX_LOG_LINES
    ensures |logs| < MAX_LOG_LINES ==> KeepLast(logs + [e], MAX_LOG_LINES) == logs + [e]
    ensures |logs| == MAX_LOG_LINES ==> KeepLast(logs + [e], MAX_LOG_LINES) == logs[1..] + [e]
  {
  }

  /**
   * Pushing any number of lines, one by one, leaves exactly the newest `MAX_LOG_LINES`
   * of the old lines followed by the new ones, in order.
   */
  lemma {:induction false} PushedAllKeepsNewest(logs: seq<LogEntry>, entries: seq<LogEntry>)
    requires |logs| <= MAX_LOG_LINES
    ensures PushedAll(logs, entries) == KeepLast(logs + entries, MAX_LOG_LINES)
    decreases |entries|
  {
    if entries != [] {
      var once := KeepLast(logs + [entries[0]], MAX_LOG_LINES);
      calc {
        PushedAll(logs, entries);
        PushedAll(once, entries[1..]);
        { PushedAllKeepsNewest(once, entries[1..]); }
        KeepLast(once + entries[1..], MAX_LOG_LINES);
        { KeepLastOfKeepLast(logs + [entries[0]], entries[1..], MAX_LOG_LINES); }
        KeepLast((logs + [entries[0]]) + entries[1..], MAX_LOG_LINES);
        { assert (logs + [entries[0]]) + entries[1..] == logs + entries; }
        KeepLast(logs + entries, MAX_LOG_LINES);
      }
    }
  }

  /** Two lines pushed one after the other are the two lines pushed together. */
  lemma PushedTwice(logs: seq<LogEntry>, e1: LogEntry, e2: LogEntry)
    ensures KeepLast(KeepLast(logs + [e1], MAX_LOG_LINES) + [e2], MAX_LOG_LINES) == KeepLast(logs + [e1, e2], MAX_LOG_LINES)
  {
    KeepLastOfKeepLast(logs + [e1], [e2], MAX_LOG_LINES);
    assert logs + [e1] + [e2] == logs + [e1, e2];
  }

  /** Truncating before appending does not change the last `n` of the result. */
  lemma KeepLastOfKeepLast<T>(s: seq<T>, t: seq<T>, n: nat)
    ensures KeepLast(KeepLast(s, n) + t, n) == KeepLast(s + t, n)
  {
    var k := KeepLast(s, n);
    KeepLastSuffix(s, n);
    assert s == s[..|s| - |k|] + k;
    assert s + t == s[..|s| - |k|] + (k + t);
  }

  // ---------------------------------------------------------------------------
  // Selections
  // ---------------------------------------------------------------------------

  /** A selection index is usable for a list of `len` items: in range, or 0 for an empty list. */
  predicate InRange(index: nat, len: nat) {
    (len == 0 && index == 0) || index < len
  }

  /** What every `*_clamped` method does to a selection index. */
  function Clamp(index: nat, len: nat): (r: nat)
    ensures InRange(r, len)
    ensures index < len ==> r == index
    ensures len <= index ==> r == if len == 0 then 0 else len - 1
  {
    if len == 0 then 0 else if index >= len then len - 1 else index
  }

  /** Clamping is idempotent and leaves a usable selection untouched. */
  lemma ClampIdempotent(index: nat, len: nat)
    ensures InRange(index, len) ==> Clamp(index, len) == index
    ensures Clamp(Clamp(index, len), len) == Clamp(index, len)
  {
  }

  /** The number of packages in the loaded manifest; 0 when none is loaded. */
  function ManifestLen(m: Option<ManifestSummary>): nat {
    if m.Some? then |m.value.packages| else 0
  }

  /** `log_scroll`'s upper bound on Down: `(logs.len() as u16).saturating_sub(1)`. */
  function MaxLogScroll(logCount: nat): nat {
    SaturatingSub(logCount % (U16_MAX + 1), 1)
  }

  /** Within the `u16` range the scroll bound grows with the log. */
  lemma MaxLogScrollMonotone(a: nat, b: nat)
    requires a <= b <= U16_MAX
    ensures MaxLogScroll(a) <= MaxLogScroll(b)
    ensures MaxLogScroll(b) == if b == 0 then 0 else b - 1
  {
    assert a % (U16_MAX + 1) == a;
    assert b % (U16_MAX + 1) == b;
  }

  // ---------------------------------------------------------------------------
  // Search filters
  // ---------------------------------------------------------------------------

  /** The project search: display name, path or one of the tags contains the needle. */
  predicate ProjectMatches(p: ProjectMeta, needle: string) {
    || Contains(Lowercase(p.displayName), needle)
    || Contains(Lowercase(p.path.text), needle)
    || exists t :: t in p.tags && Contains(Lowercase(t), needle)
  }

  /** The package search: id, display name or repository id contains the needle. */
  predicate PackageMatches(p: AvailablePackage, needle: string) {
    || Contains(Lowercase(p.id), needle)
    || Contains(Lowercase(p.displayName), needle)
    || Contains(Lowercase(p.repoId), needle)
  }

  /** `iter().filter(|p| p matches needle)` over the projects. */
  function ProjectsMatching(projects: seq<ProjectMeta>, needle: string): seq<ProjectMeta> {
    if projects == [] then []
    else
      var rest := ProjectsMatching(projects[1..], needle);
      if ProjectMatches(projects[0], needle) then [projects[0]] + rest else rest
  }

  /** `iter().filter(|p| p matches needle)` over the available packages. */
  function PackagesMatching(packages: seq<AvailablePackage>, needle: string): seq<AvailablePackage> {
    if packages == [] then []
    else
      var rest := PackagesMatching(packages[1..], needle);
      if PackageMatches(packages[0], needle) then [packages[0]] + rest else rest
  }

  /**
   * The project list as the search shows it: all projects when the query is empty,
   * otherwise those matching the lower-cased query, in their order.
   */
  function ProjectView(projects: seq<ProjectMeta>, query: string): seq<ProjectMeta> {
    if query == [] then projects else ProjectsMatching(projects, Lowercase(query))
  }

  /**
   * The package list as the search shows it: all packages when the search is empty,
   * otherwise those matching the lower-cased search, in their order.
   */
  function PackageView(packages: seq<AvailablePackage>, search: string): seq<AvailablePackage> {
    if search == [] then packages else PackagesMatching(packages, Lowercase(search))
  }

  /** Task ids strictly increase along the task list and are all below the next id to issue. */
  predicate IdsFresh(tasks: seq<TaskRecord>, nextId: nat) {
    && (forall i, j :: 0 <= i < j < |tasks| ==> tasks[i].id < tasks[j].id)
    && (forall i :: 0 <= i < |tasks| ==> tasks[i].id < nextId)
  }

  /** Fresh ids are pairwise distinct, so an id names at most one task. */
  lemma FreshIdsDistinct(tasks: seq<TaskRecord>, nextId: nat, i: nat, j: nat)
    requires IdsFresh(tasks, nextId)
    requires i < |tasks| && j < |tasks| && tasks[i].id == tasks[j].id
    ensures i == j
  {
  }

  /** Appending a record that carries the next id, and moving the counter past it, keeps ids fresh. */
  lemma AppendNextIdKeepsFresh(tasks: seq<TaskRecord>, nextId: nat, t: TaskRecord)
    requires IdsFresh(tasks, nextId) && t.id == nextId
    ensures IdsFresh(tasks + [t], nextId + 1)
  {
  }

  // ---------------------------------------------------------------------------
  // The application state
  // ---------------------------------------------------------------------------

  /** The value of every field of an `AppState`, so that a step can say which fields it changed. */
  datatype StateView = StateView(
    screen: Screen,
    shouldQuit: bool,
    tickCount: nat,
    projects: seq<ProjectMeta>,
    selectedProject: nat,
    searchMode: bool,
    searchQuery: string,
    addProjectMode: bool,
    addProjectInput: string,
    addFolderMode: bool,
    addFolderInput: string,
    newProjectMode: bool,
    newProjectEditPath: bool,
    newProjectNameInput: string,
    newProjectPathInput: string,
    newProjectTemplateIdx: nat,
    addRepoMode: bool,
    addRepoInput: string,
    addPackageMode: bool,
    addPackageInput: string,
    selectedProjectManifest: Option<ManifestSummary>,
    selectedManifestPackage: nat,
    availablePackages: seq<AvailablePackage>,
    availablePackageSearch: string,
    availablePackageSearchMode: bool,
    selectedAvailablePackage: nat,
    manageFocusAvailable: bool,
    logs: seq<LogEntry>,
    logScroll: nat,
    tasks: seq<TaskRecord>,
    nextTaskId: nat,
    statusLine: Status,
    systemChecks: SystemChecks)

  /**
   * The invariant every reduction keeps, over the fields it constrains: each selection
   * index is usable for its list, the log is within its cap and the scroll within the log,
   * and the counters are within their integer widths.
   */
  ghost predicate Invariant(
    projects: seq<ProjectMeta>, selectedProject: nat,
    manifest: Option<ManifestSummary>, selectedManifestPackage: nat,
    availablePackages: seq<AvailablePackage>, availablePackageSearch: string, selectedAvailablePackage: nat,
    logs: seq<LogEntry>, logScroll: nat, templateIdx: nat, tickCount: nat, nextTaskId: nat)
  {
    && InRange(selectedProject, |projects|)
    && InRange(selectedManifestPackage, ManifestLen(manifest))
    && InRange(selectedAvailablePackage, |PackageView(availablePackages, availablePackageSearch)|)
    && |logs| <= MAX_LOG_LINES
    && logScroll <= MaxLogScroll(|logs|)
    && templateIdx <= 2
    && tickCount <= U64_MAX
    && 1 <= nextTaskId <= U64_MAX
  }

  /** `AppState`: everything the reducer reads and updates. */
  class AppState {
    var screen: Screen
    var shouldQuit: bool
    var tickCount: nat
    var projects: seq<ProjectMeta>
    var selectedProject: nat
    var searchMode: bool
    var searchQuery: string
    var addProjectMode: bool
    var addProjectInput: string
    var addFolderMode: bool
    var addFolderInput: string
    var newProjectMode: bool
    var newProjectEditPath: bool
    var newProjectNameInput: string
    var newProjectPathInput: string
    var newProjectTemplateIdx: nat
    var addRepoMode: bool
    var addRepoInput: string
    var addPackageMode: bool
    var addPackageInput: string
    var selectedProjectManifest: Option<ManifestSummary>
    var selectedManifestPackage: nat
    var availablePackages: seq<AvailablePackage>
    var availablePackageSearch: string
    var availablePackageSearchMode: bool
    var selectedAvailablePackage: nat
    var manageFocusAvailable: bool
    var logs: seq<LogEntry>
    var logScroll: nat
    var tasks: seq<TaskRecord>
    var nextTaskId: nat
    var statusLine: Status
    var systemChecks: SystemChecks

    /**
     * The invariant every reduction keeps: each selection index is usable for its list,
     * the log is within its cap and the scroll within the log, and the counters are
     * within their integer widths.
     */
    ghost predicate Valid()
      reads this`projects, this`selectedProject, this`selectedProjectManifest, this`selectedManifestPackage
      reads this`availablePackages, this`availablePackageSearch, this`selectedAvailablePackage
      reads this`logs, this`logScroll, this`newProjectTemplateIdx, this`tickCount, this`nextTaskId
    {
      Invariant(projects, selectedProject, selectedProjectManifest, selectedManifestPackage,
                availablePackages, availablePackageSearch, selectedAvailablePackage,
                logs, logScroll, newProjectTemplateIdx, tickCount, nextTaskId)
    }

    /** The state as a value. */
    function View(): StateView
      reads this
    {
      StateView(
        screen,
        shouldQuit,
        tickCount,
        projects,
        selectedProject,
        searchMode,
        searchQuery,
        addProjectMode,
        addProjectInput,
        addFolderMode,
        addFolderInput,
        newProjectMode,
        newProjectEditPath,
        newProjectNameInput,
        newProjectPathInput,
        newProjectTemplateIdx,
        addRepoMode,
        addRepoInput,
        addPackageMode,
        addPackageInput,
        selectedProjectManifest,
        selectedManifestPackage,
        availablePackages,
        availablePackageSearch,
        availablePackageSearchMode,
        selectedAvailablePackage,
        manageFocusAvailable,
        logs,
        logScroll,
        tasks,
        nextTaskId,
        statusLine,
        systemChecks)
    }

    /** `AppState::default()`. */
    constructor ()
      ensures screen == Projects && !shouldQuit && tickCount == 0
      ensures projects == [] && selectedProject == 0
      ensures !searchMode && searchQuery == []
      ensures !addProjectMode && addProjectInput == [] && !addFolderMode && addFolderInput == []
      ensures !newProjectMode && !newProjectEditPath
      ensures newProjectNameInput == [] && newProjectPathInput == [] && newProjectTemplateIdx == 0
      ensures !addRepoMode && addRepoInput == [] && !addPackageMode && addPackageInput == []
      ensures selectedProjectManifest == None && selectedManifestPackage == 0
      ensures availablePackages == [] && availablePackageSearch == []
      ensures !availablePackageSearchMode && selectedAvailablePackage == 0 && manageFocusAvailable
      ensures logs == [] && logScroll == 0 && tasks == [] && nextTaskId == 1
      ensures statusLine == Ready
      ensures systemChecks == SystemChecks(None, None, None, None, [])
      ensures Valid() && IdsFresh(tasks, nextTaskId) && UniquePaths(projects)
    {
      screen := Projects;
      shouldQuit := false;
      tickCount := 0;
      projects := [];
      selectedProject := 0;
      searchMode := false;
      searchQuery := [];
      addProjectMode := false;
      addProjectInput := [];
      addFolderMode := false;
      addFolderInput := [];
      newProjectMode := false;
      newProjectEditPath := false;
      newProjectNameInput := [];
      newProjectPathInput := [];
      newProjectTemplateIdx := 0;
      addRepoMode := false;
      addRepoInput := [];
      addPackageMode := false;
      addPackageInput := [];
      selectedProjectManifest := None;
      selectedManifestPackage := 0;
      availablePackages := [];
      availablePackageSearch := [];
      availablePackageSearchMode := false;
      selectedAvailablePackage := 0;
      manageFocusAvailable := true;
      logs := [];
      logScroll := 0;
      tasks := [];
      nextTaskId := 1;
      statusLine := Ready;
      systemChecks := SystemChecks(None, None, None, None, []);
    }

    /** `filtered_projects`. */
    function FilteredProjects(): seq<ProjectMeta>
      reads this`projects, this`searchQuery
    {
      ProjectView(projects, searchQuery)
    }

    /** `filtered_available_packages`. */
    function FilteredAvailablePackages(): seq<AvailablePackage>
      reads this`availablePackages, this`availablePackageSearch
    {
      PackageView(availablePackages, availablePackageSearch)
    }

    /** `push_log`: append a line, then drop the oldest lines beyond `MAX_LOG_LINES`. */
    method PushLog(taskId: Option<nat>, text: LogText)
      modifies this`logs
      ensures logs == KeepLast(old(logs) + [LogEntry(taskId, text)], MAX_LOG_LINES)
      ensures old(Valid()) ==> Valid()
    {
      ghost var before := |logs|;
      logs := logs + [LogEntry(taskId, text)];
      if |logs| > MAX_LOG_LINES {
        var overflow := |logs| - MAX_LOG_LINES;
        logs := logs[overflow..];
      }
      if before <= MAX_LOG_LINES {
        MaxLogScrollMonotone(before, |logs|);
      }
    }

    /** `selected_project()`: the project at the selection index, if there is one. */
    function SelectedProject(): (r: Option<ProjectMeta>)
      reads this`projects, this`selectedProject
      ensures r.Some? <==> selectedProject < |projects|
      ensures r.Some? ==> r.value == projects[selectedProject]
    {
      if selectedProject < |projects| then Some(projects[selectedProject]) else None
    }

    /** `selected_project_clamped`. */
    method SelectedProjectClamped()
      modifies this`selectedProject
      ensures selectedProject == Clamp(old(selectedProject), |projects|)
    {
      if |projects| == 0 {
        selectedProject := 0;
      } else if selectedProject >= |projects| {
        selectedProject := |projects| - 1;
      }
    }

    /** `selected_manifest_package_clamped`: a missing manifest counts as an empty one. */
    method SelectedManifestPackageClamped()
      modifies this`selectedManifestPackage
      ensures selectedManifestPackage == Clamp(old(selectedManifestPackage), ManifestLen(selectedProjectManifest))
    {
      var len := if selectedProjectManifest.Some? then |selectedProjectManifest.value.packages| else 0;
      if len == 0 {
        selectedManifestPackage := 0;
      } else if selectedManifestPackage >= len {
        selectedManifestPackage := len - 1;
      }
    }

    /** `selected_manifest_package()`: the manifest's package at the selection index, if any. */
    function SelectedManifestPackage(): (r: Option<PackageInfo>)
      reads this`selectedProjectManifest, this`selectedManifestPackage
      ensures r.Some? <==> selectedManifestPackage < ManifestLen(selectedProjectManifest)
      ensures r.Some? ==> r.value == selectedProjectManifest.value.packages[selectedManifestPackage]
    {
      if selectedProjectManifest.Some? && selectedManifestPackage < |selectedProjectManifest.value.packages|
      then Some(selectedProjectManifest.value.packages[selectedManifestPackage])
      else None
    }

    /** `selected_available_package_clamped`: clamps against the filtered view. */
    method SelectedAvailablePackageClamped()
      modifies this`selectedAvailablePackage
      ensures selectedAvailablePackage == Clamp(old(selectedAvailablePackage), |FilteredAvailablePackages()|)
    {
      var len := |FilteredAvailablePackages()|;
      if len == 0 {
        selectedAvailablePackage := 0;
      } else if selectedAvailablePackage >= len {
        selectedAvailablePackage := len - 1;
      }
    }

    /** `selected_available_package()`: the filtered view's package at the selection index, if any. */
    function SelectedAvailablePackage(): (r: Option<AvailablePackage>)
      reads this`availablePackages, this`availablePackageSearch, this`selectedAvailablePackage
      ensures r.Some? <==> selectedAvailablePackage < |FilteredAvailablePackages()|
      ensures r.Some? ==> r.value == FilteredAvailablePackages()[selectedAvailablePackage]
    {
      var view := FilteredAvailablePackages();
      if selectedAvailablePackage < |view| then Some(view[selectedAvailablePackage]) else None
    }

    /** `current_template`: index 0 is Avatar, 1 is World, anything else UdonSharp. */
    function CurrentTemplate(): (r: string)
      reads this`newProjectTemplateIdx
      ensures r == "Avatar" <==> newProjectTemplateIdx == 0
      ensures r == "World" <==> newProjectTemplateIdx == 1
      ensures r == "UdonSharp" <==> newProjectTemplateIdx >= 2
    {
      match newProjectTemplateIdx
      case 0 => "Avatar"
      case 1 => "World"
      case _ => "UdonSharp"
    }
  }

  /** Matching keeps the order and keeps only matching projects. */
  lemma {:induction false} ProjectsMatchingSpec(projects: seq<ProjectMeta>, needle: string)
    ensures |ProjectsMatching(projects, needle)| <= |projects|
    ensures Subsequence(ProjectsMatching(projects, needle), projects)
    ensures forall k :: 0 <= k < |ProjectsMatching(projects, needle)| ==> ProjectMatches(ProjectsMatching(projects, needle)[k], needle)
    decreases |projects|
  {
    if projects != [] {
      ProjectsMatchingSpec(projects[1..], needle);
    }
  }

  /** Matching drops no matching project: each is kept as often as the list holds it. */
  lemma {:induction false} ProjectsMatchingCounts(projects: seq<ProjectMeta>, needle: string)
    ensures forall p :: multiset(ProjectsMatching(projects, needle))[p] ==
              if ProjectMatches(p, needle) then multiset(projects)[p] else 0
    decreases |projects|
  {
    if projects != [] {
      ProjectsMatchingCounts(projects[1..], needle);
      assert projects == [projects[0]] + projects[1..];
    }
  }

  /** Matching keeps the order and keeps only matching packages. */
  lemma {:induction false} PackagesMatchingSpec(packages: seq<AvailablePackage>, needle: string)
    ensures |PackagesMatching(packages, needle)| <= |packages|
    ensures Subsequence(PackagesMatching(packages, needle), packages)
    ensures forall k :: 0 <= k < |PackagesMatching(packages, needle)| ==> PackageMatches(PackagesMatching(packages, needle)[k], needle)
    decreases |packages|
  {
    if packages != [] {
      PackagesMatchingSpec(packages[1..], needle);
    }
  }

  /** Matching drops no matching package: each is kept as often as the list holds it. */
  lemma {:induction false} PackagesMatchingCounts(packages: seq<AvailablePackage>, needle: string)
    ensures forall p :: multiset(PackagesMatching(packages, needle))[p] ==
              if PackageMatches(p, needle) then multiset(packages)[p] else 0
    decreases |packages|
  {
    if packages != [] {
      PackagesMatchingCounts(packages[1..], needle);
      assert packages == [packages[0]] + packages[1..];
    }
  }

  /**
   * `filtered_projects`: with an empty query the view is the whole list in order;
   * otherwise it is a subsequence of the list holding exactly the matching projects,
   * each as often as the list does.
   */
  lemma ProjectViewSpec(projects: seq<ProjectMeta>, query: string)
    ensures query == [] ==> ProjectView(projects, query) == projects
    ensures |ProjectView(projects, query)| <= |projects|
    ensures Subsequence(ProjectView(projects, query), projects)
    ensures query != [] ==> forall k :: 0 <= k < |ProjectView(projects, query)| ==>
      ProjectMatches(ProjectView(projects, query)[k], Lowercase(query))
    ensures query != [] ==> forall p :: multiset(ProjectView(projects, query))[p] ==
                              if ProjectMatches(p, Lowercase(query)) then multiset(projects)[p] else 0
  {
    if query == [] {
      SubsequenceReflexive(projects);
    } else {
      ProjectsMatchingSpec(projects, Lowercase(query));
      ProjectsMatchingCounts(projects, Lowercase(query));
    }
  }

  /**
   * `filtered_available_packages`: with an empty search the view is the whole list in
   * order; otherwise it is a subsequence of the list holding exactly the matching
   * packages, each as often as the list does.
   */
  lemma PackageViewSpec(packages: seq<AvailablePackage>, search: string)
    ensures search == [] ==> PackageView(packages, search) == packages
    ensures |PackageView(packages, search)| <= |packages|
    ensures Subsequence(PackageView(packages, search), packages)
    ensures search != [] ==> forall k :: 0 <= k < |PackageView(packages, search)| ==>
      PackageMatches(PackageView(packages, search)[k], Lowercase(search))
    ensures search != [] ==> forall p :: multiset(PackageView(packages, search))[p] ==
                               if PackageMatches(p, Lowercase(search)) then multiset(packages)[p] else 0
  {
    if search == [] {
      SubsequenceReflexive(packages);
    } else {
      PackagesMatchingSpec(packages, Lowercase(search));
      PackagesMatchingCounts(packages, Lowercase(search));
    }
  }

  /** In a valid state a non-empty list always has its selected item: selections never dangle. */
  lemma SelectionsNeverDangle(s: AppState)
    requires s.Valid()
    ensures s.projects != [] ==> s.SelectedProject().Some?
    ensures ManifestLen(s.selectedProjectManifest) > 0 ==> s.SelectedManifestPackage().Some?
    ensures s.FilteredAvailablePackages() != [] ==> s.SelectedAvailablePackage().Some?
  {
  }
}
