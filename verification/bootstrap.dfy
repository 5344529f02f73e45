/**
 * The output-directory bootstrap done when a project descriptor is built:
 * each of the three output directories is created unless a directory or a
 * file already occupies its path. The file system is reduced to the sets of
 * paths that are directories and that are files.
 */
module Bootstrap {

  /** Paths that are directories and paths that are regular files. */
  datatype FileSystem = FileSystem(dirs: set<string>, files: set<string>)

  /** No path is both a directory and a file. */
  predicate Valid(fs: FileSystem) {
    fs.dirs !! fs.files
  }

  const ObjDir := "build/bin-int"
  const TargetDir := "build/bin"
  const DependencyDir := "build/dependencies"

  /** One `if not isdir(p) and not isfile(p): mkdir(p)` step. */
  function MakeDirIfAbsent(fs: FileSystem, p: string): FileSystem
  {
    if p !in fs.dirs && p !in fs.files then fs.(dirs := fs.dirs + {p}) else fs
  }

  /**
   * The three steps in order: objects, targets, dependencies. Afterwards each
   * output path is a directory unless a file was already there, in which case
   * it stays a file and no directory is made; only output paths are added,
   * files are untouched, and a consistent file system stays consistent.
   */
  function Bootstrap(fs: FileSystem): (r: FileSystem)
    ensures Valid(fs) ==> Valid(r)
    ensures r.files == fs.files
    ensures fs.dirs <= r.dirs
    ensures r.dirs - fs.dirs <= {ObjDir, TargetDir, DependencyDir}
    ensures Valid(fs) ==> forall p :: p in {ObjDir, TargetDir, DependencyDir} ==>
      (p in r.dirs <==> p !in fs.files)
  {
    MakeDirIfAbsent(MakeDirIfAbsent(MakeDirIfAbsent(fs, ObjDir), TargetDir), DependencyDir)
  }

  /** Constructing a second descriptor over an initialised tree changes nothing. */
  lemma BootstrapIdempotent(fs: FileSystem)
    ensures Bootstrap(Bootstrap(fs)) == Bootstrap(fs)
  {
  }
}
