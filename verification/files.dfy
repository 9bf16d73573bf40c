/** File-system paths and a snapshot of what exists on disk. */
module Files {

  /** An absolute path, components separated by '/'. */
  type Path = string

  /** `new File(parent, child).getAbsolutePath()` for an absolute parent and a relative child. */
  function ChildPath(parent: Path, child: string): Path {
    parent + "/" + child
  }

  /**
   * What `File.isDirectory()`, `File.exists()` and `File.canRead()` answer, as three sets
   * of paths. The plugin only ever reads them, so a snapshot is enough.
   */
  datatype FileSystem = FileSystem(directories: set<Path>, existing: set<Path>, readable: set<Path>)
}
