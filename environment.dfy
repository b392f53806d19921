/** The collaborators the overlay manager drives: paths, the files visible on
    the host, the project's overlay directories, the overlay filesystem
    record, and a trace of every external call made (overlay mount/unmount,
    directory creation, file unlink/touch, package operations run inside a
    chroot). The external calls are modelled as recorded events that return
    normally. */
module Environment {

  datatype Option<T> = None | Some(value: T)

  /** A filesystem path: the root, or the entry `name` inside `parent`
      (what `parent / name` denotes). */
  datatype Path = Root | Child(parent: Path, name: string)

  /** What a path is on the host; a path absent from the map does not exist. */
  datatype FileKind = Symlink(target: Path) | Regular(content: seq<bv8>)

  type FileTree = map<Path, FileKind>

  predicate IsSymlink(files: FileTree, p: Path) {
    p in files && files[p].Symlink?
  }

  /** The overlay directories supplied by the project information. */
  datatype ProjectInfo = ProjectInfo(
    overlayMountDir: Path,
    overlayPackagesDir: Path,
    overlayWorkDir: Path)

  /** An overlay filesystem as handed to the union-mount primitive: lower
      directories (highest precedence first), the upper directory, the work
      directory, and the mount point. */
  datatype OverlayFs = OverlayFs(
    lowerDirs: seq<Path>,
    upperDir: Path,
    workDir: Path,
    mountPoint: Path)

  /** One observable effect on the host. */
  datatype Call =
    | MakeDir(dir: Path)
    | OverlayMount(fs: OverlayFs)
    | OverlayUnmount(fs: OverlayFs)
    | Unlink(path: Path)
    | Touch(path: Path)
    | ChrootRefreshPackagesList(root: Path)
    | ChrootDownloadPackages(root: Path, packageNames: seq<string>)
    | ChrootInstallPackages(root: Path, packageNames: seq<string>)
    | ChrootRemoveVarCache(root: Path)

  /** The host: the files it shows and the calls made on it so far. */
  class Host {
    var files: FileTree
    var calls: seq<Call>

    constructor (files: FileTree)
      ensures this.files == files && calls == []
    {
      this.files := files;
      calls := [];
    }

    /** A foreign call whose effect on the files is not modelled. */
    method Record(c: Call)
      requires !c.Unlink? && !c.Touch?
      modifies this
      ensures files == old(files)
      ensures calls == old(calls) + [c]
    {
      calls := calls + [c];
    }

    /** `Path.unlink`: removes an existing entry. */
    method UnlinkPath(p: Path)
      requires p in files
      modifies this
      ensures files == old(files) - {p}
      ensures calls == old(calls) + [Unlink(p)]
    {
      files := files - {p};
      calls := calls + [Unlink(p)];
    }

    /** `Path.touch` on a path that does not exist: creates an empty regular
        file there. */
    method TouchPath(p: Path)
      requires p !in files
      modifies this
      ensures files == old(files)[p := Regular([])]
      ensures calls == old(calls) + [Touch(p)]
    {
      files := files[p := Regular([])];
      calls := calls + [Touch(p)];
    }
  }
}
