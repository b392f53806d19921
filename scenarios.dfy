/** Callers of the overlay manager and its sessions, showing what the
    contracts let a caller conclude about whole `with` blocks. */
module Scenarios {
  import opened Environment
  import opened LayerStack
  import opened Overlays

  /** After a successful unmount a second unmount raises. */
  method UnmountTwice(manager: OverlayManager) returns (first: Status, second: Status)
    requires manager.overlayFs.Some?
    modifies manager, manager.host
    ensures first == Success
    ensures second == RuntimeError(UnmountNotMountedMessage)
    ensures manager.overlayFs == None
    ensures manager.host.calls == old(manager.host.calls) + [OverlayUnmount(old(manager.overlayFs).value)]
  {
    first := manager.Unmount();
    second := manager.Unmount();
  }

  /** `with LayerMount(manager, part) as ctx: ctx.install_packages(names)`,
      left by the process that created it: directories, mount of the stack
      for `part` with the package cache, resolver fix-up, install, then one
      unmount of that same stack; nothing is mounted afterwards. */
  method InstallInLayerSession(manager: OverlayManager, part: Part, packageNames: seq<string>, pid: int)
    returns (outcome: ExitOutcome)
    requires manager.Valid()
    requires part in manager.partList
    requires manager.baseLayerDir.Some?
    modifies manager, manager.host
    ensures outcome == Returned(false)
    ensures manager.overlayFs == None
    ensures
      var info := manager.projectInfo;
      var stack := PartLayerStack(info, manager.baseLayerDir.value, manager.partList, part, true);
      var resolv := ResolvConfPath(info.overlayMountDir);
      manager.host.calls
        == old(manager.host.calls) + OverlayDirCalls(info) + [OverlayMount(stack)]
           + ResolvConfFixCalls(old(manager.host.files), resolv)
           + [ChrootInstallPackages(info.overlayMountDir, packageNames),
              ChrootRemoveVarCache(info.overlayMountDir),
              OverlayUnmount(stack)] &&
      manager.host.files == ResolvConfFixed(old(manager.host.files), resolv)
  {
    var session := new LayerMount(manager, part, pid);
    var entered := session.Enter();
    var installed := session.InstallPackages(packageNames);
    outcome := session.Exit(pid);
  }

  /** `with PackageCacheMount(manager) as ctx: ctx.refresh_packages_list();
      ctx.download_packages(names)`, left by the process that created it. */
  method DownloadInPackageCacheSession(manager: OverlayManager, packageNames: seq<string>, pid: int)
    returns (outcome: ExitOutcome)
    requires manager.baseLayerDir.Some?
    modifies manager, manager.host
    ensures outcome == Returned(false)
    ensures manager.overlayFs == None
    ensures
      var info := manager.projectInfo;
      var stack := PackageCacheStack(info, manager.baseLayerDir.value);
      var resolv := ResolvConfPath(info.overlayMountDir);
      manager.host.calls
        == old(manager.host.calls) + OverlayDirCalls(info) + [OverlayMount(stack)]
           + ResolvConfFixCalls(old(manager.host.files), resolv)
           + [ChrootRefreshPackagesList(info.overlayMountDir),
              ChrootDownloadPackages(info.overlayMountDir, packageNames),
              OverlayUnmount(stack)] &&
      manager.host.files == ResolvConfFixed(old(manager.host.files), resolv)
  {
    var session := new PackageCacheMount(manager, pid);
    var entered := session.Enter();
    var refreshed := session.RefreshPackagesList();
    var downloaded := session.DownloadPackages(packageNames);
    outcome := session.Exit(pid);
  }

  /** A leaked child (another pid) reaching the end of the `with` block
      exits the process: the stack stays mounted and no unmount is made. */
  method LeakedChildLeavesSession(manager: OverlayManager, part: Part, pid: int, childPid: int)
    returns (outcome: ExitOutcome)
    requires manager.Valid()
    requires part in manager.partList
    requires manager.baseLayerDir.Some?
    requires childPid != pid
    modifies manager, manager.host
    ensures outcome == ProcessExit
    ensures
      var info := manager.projectInfo;
      var stack := PartLayerStack(info, manager.baseLayerDir.value, manager.partList, part, true);
      manager.overlayFs == Some(stack) &&
      manager.host.calls
        == old(manager.host.calls) + OverlayDirCalls(info) + [OverlayMount(stack)]
           + ResolvConfFixCalls(old(manager.host.files), ResolvConfPath(info.overlayMountDir))
  {
    var session := new LayerMount(manager, part, pid);
    var entered := session.Enter();
    outcome := session.Exit(childPid);
  }

  /** Mounting while a stack is active is not rejected: the new stack
      replaces the record and the earlier one is never unmounted. */
  method MountOverActiveStack(manager: OverlayManager, first: Part, second: Part)
    returns (firstStatus: Status, secondStatus: Status)
    requires manager.Valid()
    requires first in manager.partList && second in manager.partList
    requires manager.baseLayerDir.Some?
    modifies manager, manager.host
    ensures firstStatus == Success && secondStatus == Success
    ensures
      var info := manager.projectInfo;
      var base := manager.baseLayerDir.value;
      var firstStack := PartLayerStack(info, base, manager.partList, first, false);
      var secondStack := PartLayerStack(info, base, manager.partList, second, false);
      manager.overlayFs == Some(secondStack) &&
      manager.host.calls == old(manager.host.calls) + [OverlayMount(firstStack), OverlayMount(secondStack)]
  {
    firstStatus := manager.MountLayer(first);
    secondStatus := manager.MountLayer(second);
  }
}
