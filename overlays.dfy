/** The overlay manager, which mounts and unmounts the overlay layer stack and
    runs package operations inside a chroot at the mount point, and the two
    scoped sessions (`LayerMount`, `PackageCacheMount`) that pair every
    mount with its unmount. */
module Overlays {
  import opened Environment
  import opened LayerStack

  /** Normal return, or the `RuntimeError` the source raises. */
  datatype Status = Success | RuntimeError(message: string)

  const MountLayerNoBaseMessage := "request to mount overlay without a base layer"
  const MountPkgCacheNoBaseMessage := "request to mount the overlay package cache without a base layer"
  const UnmountNotMountedMessage := "filesystem is not mounted"
  const PackagesNotMountedMessage := "overlay filesystem not mounted"

  /** How a session's exit ends: the process exits (the pid guard fired),
      the exit returns (`false`: a pending exception is not suppressed), or
      the unmount raised. */
  datatype ExitOutcome = ProcessExit | Returned(suppress: bool) | Raised(message: string)

  /** `<mount_dir>/etc/resolv.conf` */
  function ResolvConfPath(mountDir: Path): Path {
    Child(Child(mountDir, "etc"), "resolv.conf")
  }

  /** The files after the resolver fix-up: a symlinked resolver file becomes
      an empty regular file; a regular or absent one is left alone; no other
      path changes. */
  function ResolvConfFixed(files: FileTree, resolv: Path): (fixed: FileTree)
    ensures IsSymlink(files, resolv) ==> resolv in fixed && fixed[resolv] == Regular([])
    ensures !IsSymlink(files, resolv) ==> fixed == files
    ensures fixed.Keys == files.Keys
    ensures forall q :: q in files && q != resolv ==> fixed[q] == files[q]
  {
    if IsSymlink(files, resolv) then files[resolv := Regular([])] else files
  }

  /** The calls the fix-up makes: unlink then touch, only for a symlink. */
  function ResolvConfFixCalls(files: FileTree, resolv: Path): seq<Call> {
    if IsSymlink(files, resolv) then [Unlink(resolv), Touch(resolv)] else []
  }

  /** After the fix-up the resolver file is not a symlink. */
  lemma ResolvConfNotSymlinkAfterFix(files: FileTree, resolv: Path)
    ensures !IsSymlink(ResolvConfFixed(files, resolv), resolv)
    ensures resolv in files ==> resolv in ResolvConfFixed(files, resolv) && ResolvConfFixed(files, resolv)[resolv].Regular?
  {
  }

  /** Running the fix-up twice is the same as running it once. */
  lemma ResolvConfFixIdempotent(files: FileTree, resolv: Path)
    ensures ResolvConfFixed(ResolvConfFixed(files, resolv), resolv) == ResolvConfFixed(files, resolv)
    ensures ResolvConfFixCalls(ResolvConfFixed(files, resolv), resolv) == []
  {
  }

  /** The directory-creation calls `mkdirs` makes, in order. */
  function OverlayDirCalls(info: ProjectInfo): seq<Call> {
    [MakeDir(info.overlayMountDir), MakeDir(info.overlayPackagesDir), MakeDir(info.overlayWorkDir)]
  }

  class OverlayManager {
    const projectInfo: ProjectInfo
    const partList: seq<Part>
    const layerDirs: seq<Path>
    const baseLayerDir: Option<Path>
    /** The host this manager acts upon. */
    const host: Host
    /** The active stack, or `None` when nothing is mounted. */
    var overlayFs: Option<OverlayFs>

    ghost predicate Valid() {
      layerDirs == LayerDirs(partList)
    }

    constructor (host: Host, projectInfo: ProjectInfo, partList: seq<Part>, baseLayerDir: Option<Path>)
      ensures Valid()
      ensures this.host == host && this.projectInfo == projectInfo
      ensures this.partList == partList && this.baseLayerDir == baseLayerDir
      ensures |layerDirs| == |partList|
      ensures forall i :: 0 <= i < |partList| ==> layerDirs[i] == partList[i].partLayerDir
      ensures overlayFs == None
    {
      this.host := host;
      this.projectInfo := projectInfo;
      this.partList := partList;
      layerDirs := LayerDirs(partList);
      overlayFs := None;
      this.baseLayerDir := baseLayerDir;
    }

    /** Mounts the layer stack up to `part`. Without a base layer it raises
        and changes nothing; otherwise the stack for `part` becomes active and
        is mounted. A stack already active is replaced, not rejected. */
    method MountLayer(part: Part, pkgCache: bool := false) returns (status: Status)
      requires Valid()
      requires baseLayerDir.Some? ==> part in partList
      modifies this, host
      ensures host.files == old(host.files)
      ensures baseLayerDir.None? ==>
                status == RuntimeError(MountLayerNoBaseMessage) &&
                overlayFs == old(overlayFs) && host.calls == old(host.calls)
      ensures baseLayerDir.Some? ==>
                status == Success &&
                overlayFs == Some(PartLayerStack(projectInfo, baseLayerDir.value, partList, part, pkgCache)) &&
                host.calls == old(host.calls) + [OverlayMount(overlayFs.value)]
    {
      if baseLayerDir.None? {
        return RuntimeError(MountLayerNoBaseMessage);
      }
      var lowers := [baseLayerDir.value];
      if pkgCache {
        lowers := lowers + [projectInfo.overlayPackagesDir];
      }
      var index := IndexOf(partList, part);
      lowers := lowers + layerDirs[0..index];
      var upper := layerDirs[index];
      // the mount primitive gives the leftmost lower the highest precedence
      lowers := Reverse(lowers);
      var fs := OverlayFs(lowers, upper, projectInfo.overlayWorkDir, projectInfo.overlayMountDir);
      overlayFs := Some(fs);
      host.Record(OverlayMount(fs));
      status := Success;
    }

    /** Mounts the base layer under the package cache layer. Without a base
        layer it raises and changes nothing. */
    method MountPkgCache() returns (status: Status)
      modifies this, host
      ensures host.files == old(host.files)
      ensures baseLayerDir.None? ==>
                status == RuntimeError(MountPkgCacheNoBaseMessage) &&
                overlayFs == old(overlayFs) && host.calls == old(host.calls)
      ensures baseLayerDir.Some? ==>
                status == Success &&
                overlayFs == Some(PackageCacheStack(projectInfo, baseLayerDir.value)) &&
                host.calls == old(host.calls) + [OverlayMount(overlayFs.value)]
    {
      if baseLayerDir.None? {
        return RuntimeError(MountPkgCacheNoBaseMessage);
      }
      var fs := OverlayFs([baseLayerDir.value], projectInfo.overlayPackagesDir,
                          projectInfo.overlayWorkDir, projectInfo.overlayMountDir);
      overlayFs := Some(fs);
      host.Record(OverlayMount(fs));
      status := Success;
    }

    /** Unmounts the active stack and clears it; raises when nothing is
        mounted. Either way nothing is mounted afterwards. */
    method Unmount() returns (status: Status)
      modifies this, host
      ensures overlayFs == None
      ensures host.files == old(host.files)
      ensures old(overlayFs).None? ==>
                status == RuntimeError(UnmountNotMountedMessage) && host.calls == old(host.calls)
      ensures old(overlayFs).Some? ==>
                status == Success && host.calls == old(host.calls) + [OverlayUnmount(old(overlayFs).value)]
    {
      if overlayFs.None? {
        return RuntimeError(UnmountNotMountedMessage);
      }
      host.Record(OverlayUnmount(overlayFs.value));
      overlayFs := None;
      status := Success;
    }

    /** Asks for the mount point, package cache and work directories, in
        that order. */
    method Mkdirs()
      modifies host
      ensures host.files == old(host.files)
      ensures host.calls == old(host.calls) + OverlayDirCalls(projectInfo)
    {
      var overlayDirs := [projectInfo.overlayMountDir, projectInfo.overlayPackagesDir, projectInfo.overlayWorkDir];
      for i := 0 to |overlayDirs|
        invariant host.files == old(host.files)
        invariant |host.calls| == |old(host.calls)| + i
        invariant host.calls[..|old(host.calls)|] == old(host.calls)
        invariant forall k :: 0 <= k < i ==> host.calls[|old(host.calls)| + k] == MakeDir(overlayDirs[k])
      {
        host.Record(MakeDir(overlayDirs[i]));
      }
      var n := |old(host.calls)|;
      assert host.calls[n] == MakeDir(overlayDirs[0]);
      assert host.calls[n + 1] == MakeDir(overlayDirs[1]);
      assert host.calls[n + 2] == MakeDir(overlayDirs[2]);
      assert host.calls[n..] == OverlayDirCalls(projectInfo);
      assert host.calls == old(host.calls) + host.calls[n..];
    }

    /** Refreshes the package list inside a chroot at the mount point;
        raises when nothing is mounted. The mount state never changes. */
    method RefreshPackagesList() returns (status: Status)
      modifies host
      ensures host.files == old(host.files)
      ensures overlayFs.None? ==>
                status == RuntimeError(PackagesNotMountedMessage) && host.calls == old(host.calls)
      ensures overlayFs.Some? ==>
                status == Success &&
                host.calls == old(host.calls) + [ChrootRefreshPackagesList(projectInfo.overlayMountDir)]
    {
      if overlayFs.None? {
        return RuntimeError(PackagesNotMountedMessage);
      }
      host.Record(ChrootRefreshPackagesList(projectInfo.overlayMountDir));
      status := Success;
    }

    /** Downloads packages inside a chroot at the mount point; raises when
        nothing is mounted. The mount state never changes. */
    method DownloadPackages(packageNames: seq<string>) returns (status: Status)
      modifies host
      ensures host.files == old(host.files)
      ensures overlayFs.None? ==>
                status == RuntimeError(PackagesNotMountedMessage) && host.calls == old(host.calls)
      ensures overlayFs.Some? ==>
                status == Success &&
                host.calls == old(host.calls) + [ChrootDownloadPackages(projectInfo.overlayMountDir, packageNames)]
    {
      if overlayFs.None? {
        return RuntimeError(PackagesNotMountedMessage);
      }
      host.Record(ChrootDownloadPackages(projectInfo.overlayMountDir, packageNames));
      status := Success;
    }

    /** Installs packages inside a chroot at the mount point, then removes
        the chroot's `/var/cache`; raises when nothing is mounted. The mount
        state never changes. */
    method InstallPackages(packageNames: seq<string>) returns (status: Status)
      modifies host
      ensures host.files == old(host.files)
      ensures overlayFs.None? ==>
                status == RuntimeError(PackagesNotMountedMessage) && host.calls == old(host.calls)
      ensures overlayFs.Some? ==>
                status == Success &&
                host.calls == old(host.calls) + [ChrootInstallPackages(projectInfo.overlayMountDir, packageNames),
                                                 ChrootRemoveVarCache(projectInfo.overlayMountDir)]
    {
      if overlayFs.None? {
        return RuntimeError(PackagesNotMountedMessage);
      }
      var mountDir := projectInfo.overlayMountDir;
      host.Record(ChrootInstallPackages(mountDir, packageNames));
      host.Record(ChrootRemoveVarCache(mountDir));
      status := Success;
    }

    /** Replaces a symlinked `<mount_dir>/etc/resolv.conf` by an empty
        regular file (unlink, then touch); any other state is left alone. */
    method FixResolvConf()
      modifies host
      ensures host.files == ResolvConfFixed(old(host.files), ResolvConfPath(projectInfo.overlayMountDir))
      ensures host.calls == old(host.calls) + ResolvConfFixCalls(old(host.files), ResolvConfPath(projectInfo.overlayMountDir))
    {
      var resolv := ResolvConfPath(projectInfo.overlayMountDir);
      if IsSymlink(host.files, resolv) {
        host.UnlinkPath(resolv);
        host.TouchPath(resolv);
        assert host.files == old(host.files)[resolv := Regular([])];
      }
    }
  }

  /** A scope in which the layer stack up to `topPart` is mounted. */
  class LayerMount {
    const overlayManager: OverlayManager
    const topPart: Part
    const pkgCache: bool
    /** The process that created the session. */
    const pid: int

    constructor (overlayManager: OverlayManager, topPart: Part, pid: int, pkgCache: bool := true)
      modifies overlayManager.host
      ensures this.overlayManager == overlayManager && this.topPart == topPart
      ensures this.pkgCache == pkgCache && this.pid == pid
      ensures overlayManager.host.files == old(overlayManager.host.files)
      ensures overlayManager.host.calls == old(overlayManager.host.calls) + OverlayDirCalls(overlayManager.projectInfo)
    {
      this.overlayManager := overlayManager;
      overlayManager.Mkdirs();
      this.topPart := topPart;
      this.pkgCache := pkgCache;
      this.pid := pid;
    }

    /** Mounts the stack for `topPart`, then fixes the resolver file. If the
        mount raises, the error propagates and nothing else happens. */
    method Enter() returns (status: Status)
      requires overlayManager.Valid()
      requires overlayManager.baseLayerDir.Some? ==> topPart in overlayManager.partList
      modifies overlayManager, overlayManager.host
      ensures overlayManager.baseLayerDir.None? ==>
                status == RuntimeError(MountLayerNoBaseMessage) &&
                overlayManager.overlayFs == old(overlayManager.overlayFs) &&
                overlayManager.host.calls == old(overlayManager.host.calls) &&
                overlayManager.host.files == old(overlayManager.host.files)
      ensures overlayManager.baseLayerDir.Some? ==>
                var stack := PartLayerStack(overlayManager.projectInfo, overlayManager.baseLayerDir.value,
                                            overlayManager.partList, topPart, pkgCache);
                var resolv := ResolvConfPath(overlayManager.projectInfo.overlayMountDir);
                status == Success &&
                overlayManager.overlayFs == Some(stack) &&
                overlayManager.host.calls
                  == old(overlayManager.host.calls) + [OverlayMount(stack)]
                     + ResolvConfFixCalls(old(overlayManager.host.files), resolv) &&
                overlayManager.host.files == ResolvConfFixed(old(overlayManager.host.files), resolv)
    {
      status := overlayManager.MountLayer(topPart, pkgCache := pkgCache);
      if status.RuntimeError? {
        return;
      }
      overlayManager.FixResolvConf();
    }

    /** Leaves the scope. In a process other than the creator it exits the
        process without unmounting; otherwise it unmounts exactly once and
        returns `false`, or propagates the unmount's error. */
    method Exit(currentPid: int) returns (outcome: ExitOutcome)
      modifies overlayManager, overlayManager.host
      ensures currentPid != pid ==>
                outcome == ProcessExit && unchanged(overlayManager, overlayManager.host)
      ensures currentPid == pid ==>
                overlayManager.overlayFs == None &&
                overlayManager.host.files == old(overlayManager.host.files)
      ensures currentPid == pid && old(overlayManager.overlayFs).Some? ==>
                outcome == Returned(false) &&
                overlayManager.host.calls
                  == old(overlayManager.host.calls) + [OverlayUnmount(old(overlayManager.overlayFs).value)]
      ensures currentPid == pid && old(overlayManager.overlayFs).None? ==>
                outcome == Raised(UnmountNotMountedMessage) &&
                overlayManager.host.calls == old(overlayManager.host.calls)
    {
      // prevent the chroot's process leak
      if currentPid != pid {
        return ProcessExit;
      }
      var status := overlayManager.Unmount();
      if status.RuntimeError? {
        return Raised(status.message);
      }
      outcome := Returned(false);
    }

    method InstallPackages(packageNames: seq<string>) returns (status: Status)
      modifies overlayManager.host
      ensures overlayManager.host.files == old(overlayManager.host.files)
      ensures overlayManager.overlayFs.None? ==>
                status == RuntimeError(PackagesNotMountedMessage) &&
                overlayManager.host.calls == old(overlayManager.host.calls)
      ensures overlayManager.overlayFs.Some? ==>
                status == Success &&
                overlayManager.host.calls
                  == old(overlayManager.host.calls)
                     + [ChrootInstallPackages(overlayManager.projectInfo.overlayMountDir, packageNames),
                        ChrootRemoveVarCache(overlayManager.projectInfo.overlayMountDir)]
    {
      status := overlayManager.InstallPackages(packageNames);
    }
  }

  /** A scope in which the package cache stack is mounted. */
  class PackageCacheMount {
    const overlayManager: OverlayManager
    /** The process that created the session. */
    const pid: int

    constructor (overlayManager: OverlayManager, pid: int)
      modifies overlayManager.host
      ensures this.overlayManager == overlayManager && this.pid == pid
      ensures overlayManager.host.files == old(overlayManager.host.files)
      ensures overlayManager.host.calls == old(overlayManager.host.calls) + OverlayDirCalls(overlayManager.projectInfo)
    {
      this.overlayManager := overlayManager;
      overlayManager.Mkdirs();
      this.pid := pid;
    }

    /** Mounts the package cache stack, then fixes the resolver file. If the
        mount raises, the error propagates and nothing else happens. */
    method Enter() returns (status: Status)
      modifies overlayManager, overlayManager.host
      ensures overlayManager.baseLayerDir.None? ==>
                status == RuntimeError(MountPkgCacheNoBaseMessage) &&
                overlayManager.overlayFs == old(overlayManager.overlayFs) &&
                overlayManager.host.calls == old(overlayManager.host.calls) &&
                overlayManager.host.files == old(overlayManager.host.files)
      ensures overlayManager.baseLayerDir.Some? ==>
                var stack := PackageCacheStack(overlayManager.projectInfo, overlayManager.baseLayerDir.value);
                var resolv := ResolvConfPath(overlayManager.projectInfo.overlayMountDir);
                status == Success &&
                overlayManager.overlayFs == Some(stack) &&
                overlayManager.host.calls
                  == old(overlayManager.host.calls) + [OverlayMount(stack)]
                     + ResolvConfFixCalls(old(overlayManager.host.files), resolv) &&
                overlayManager.host.files == ResolvConfFixed(old(overlayManager.host.files), resolv)
    {
      status := overlayManager.MountPkgCache();
      if status.RuntimeError? {
        return;
      }
      overlayManager.FixResolvConf();
    }

    /** Leaves the scope, exactly as `LayerMount.Exit` does. */
    method Exit(currentPid: int) returns (outcome: ExitOutcome)
      modifies overlayManager, overlayManager.host
      ensures currentPid != pid ==>
                outcome == ProcessExit && unchanged(overlayManager, overlayManager.host)
      ensures currentPid == pid ==>
                overlayManager.overlayFs == None &&
                overlayManager.host.files == old(overlayManager.host.files)
      ensures currentPid == pid && old(overlayManager.overlayFs).Some? ==>
                outcome == Returned(false) &&
                overlayManager.host.calls
                  == old(overlayManager.host.calls) + [OverlayUnmount(old(overlayManager.overlayFs).value)]
      ensures currentPid == pid && old(overlayManager.overlayFs).None? ==>
                outcome == Raised(UnmountNotMountedMessage) &&
                overlayManager.host.calls == old(overlayManager.host.calls)
    {
      // prevent the chroot's process leak
      if currentPid != pid {
        return ProcessExit;
      }
      var status := overlayManager.Unmount();
      if status.RuntimeError? {
        return Raised(status.message);
      }
      outcome := Returned(false);
    }

    method RefreshPackagesList() returns (status: Status)
      modifies overlayManager.host
      ensures overlayManager.host.files == old(overlayManager.host.files)
      ensures overlayManager.overlayFs.None? ==>
                status == RuntimeError(PackagesNotMountedMessage) &&
                overlayManager.host.calls == old(overlayManager.host.calls)
      ensures overlayManager.overlayFs.Some? ==>
                status == Success &&
                overlayManager.host.calls
                  == old(overlayManager.host.calls)
                     + [ChrootRefreshPackagesList(overlayManager.projectInfo.overlayMountDir)]
    {
      status := overlayManager.RefreshPackagesList();
    }

    method DownloadPackages(packageNames: seq<string>) returns (status: Status)
      modifies overlayManager.host
      ensures overlayManager.host.files == old(overlayManager.host.files)
      ensures overlayManager.overlayFs.None? ==>
                status == RuntimeError(PackagesNotMountedMessage) &&
                overlayManager.host.calls == old(overlayManager.host.calls)
      ensures overlayManager.overlayFs.Some? ==>
                status == Success &&
                overlayManager.host.calls
                  == old(overlayManager.host.calls)
                     + [ChrootDownloadPackages(overlayManager.projectInfo.overlayMountDir, packageNames)]
    {
      status := overlayManager.DownloadPackages(packageNames);
    }
  }
}
