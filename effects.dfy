/** The closed vocabulary of side effects the reducer requests (src/app/effect.rs). */
module Effects {
  import opened Platform
  import opened State

  /** `RunCommand`'s `title` is the source's `label`, a Dafny keyword. */
  datatype Effect =
    | LoadConfig
    | LoadAvailablePackages
    | SaveConfig(config: AppConfig)
    | ScanProjectsFolder(root: Path)
    | ReadManifest(projectPath: Path)
    | RunCommand(taskId: nat, title: string, program: string, args: seq<string>)
    | CancelTask(taskId: nat)
}
