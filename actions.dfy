/** The closed vocabulary of events the reducer reacts to (src/app/action.rs). */
module Actions {
  import opened Wrappers
  import opened Platform
  import opened State

  datatype OutputStream = Stdout | Stderr

  /** The keys the reducer tells apart; every other key is `OtherKey`. */
  datatype KeyCode =
    | Char(c: char)
    | Tab
    | Left
    | Right
    | Up
    | Down
    | Enter
    | Esc
    | Backspace
    | OtherKey

  /** A key press. Of the modifiers only Control is ever consulted. */
  datatype KeyEvent = KeyEvent(code: KeyCode, control: bool)

  datatype Action =
    | Init
    | Tick
    | Key(key: KeyEvent)
    | ConfigLoaded(config: Result<AppConfig>)
    | ConfigSaved(saved: Result<()>)
    | FolderScanned(scan: Result<seq<Path>>)
    | AvailablePackagesLoaded(packages: Result<seq<AvailablePackage>>)
    | ManifestLoaded(manifest: Result<ManifestSummary>)
    | TaskOutput(taskId: nat, stream: OutputStream, line: string)
    | TaskDone(taskId: nat, success: bool, cancelled: bool, exitCode: Option<int>, error: Option<string>)
}
