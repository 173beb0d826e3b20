/**
 * Paths and the three filesystem / path-library queries the reducer makes.
 * The reducer never touches the filesystem itself: `Path::exists`, `Path::file_name`
 * and `Path::join` are handed to it as the oracles of a `Host`.
 */
module Platform {
  import opened Wrappers

  /** A `PathBuf`, identified by the text it was built from. */
  datatype Path = Path(text: string)

  /**
   * The environment's answers:
   *  - `PathExists(p)`: does `p` exist on disk right now (`Path::exists`)? The paths that do
   *    are `existing`;
   *  - `FileName(p)`: the last component of `p`, if any (`Path::file_name`, lossily
   *    decoded); the paths that have one are the domain of `fileNames`;
   *  - `join(p, name)`: `p.join(name)`.
   */
  datatype Host = Host(
    existing: iset<Path>,
    fileNames: imap<Path, string>,
    join: (Path, string) -> Path)
  {
    predicate PathExists(p: Path) {
      p in existing
    }

    function FileName(p: Path): Option<string> {
      if p in fileNames then Some(fileNames[p]) else None
    }
  }
}
