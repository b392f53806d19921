# Overlay layer stack and mount sessions (craft-parts)

This project models the overlay step of craft-parts in Dafny. The model covers:

- how `OverlayManager` composes the overlay layer stack for a part: the lower directories, the upper directory, the work directory and the mount point;
- the manager's mount state, the `_overlay_fs` field, which is either nothing or the active stack;
- the `RuntimeError`s the manager raises when there is no base layer or nothing is mounted;
- the resolver fix-up on `<mount_dir>/etc/resolv.conf`;
- the call order that the scoped sessions `LayerMount` and `PackageCacheMount` enforce: create the directories and record the pid at construction, mount and then fix the resolver on entry, and on exit run the pid guard before a single unmount.

Modules:

- `Environment` (`environment.dfy`): the collaborators. Paths are values (`Root` or `Child(parent, name)`). The host's files are a map from path to `Symlink` or `Regular(content)`; a path missing from the map does not exist. `ProjectInfo` holds the three overlay directories. `OverlayFs` is the stack handed to the union-mount primitive. `Host` is an object that holds the files and the trace of every external call made so far. All external effects are recorded in that trace as `Call` values: overlay mount and unmount, directory creation, unlink, touch, and the package operations run inside a chroot.
- `LayerStack` (`layer_stack.dfy`): the pure layer-stack composition (part layer directories, part index, reversal, lowers) and its lemmas.
- `Overlays` (`overlays.dfy`): the classes `OverlayManager`, `LayerMount` and `PackageCacheMount`, plus the resolver fix-up function that specifies `fix_resolv_conf`.
- `Scenarios` (`scenarios.dfy`): client methods for whole `with` blocks. They show what callers can conclude from the contracts.

Behaviour of the code that the model keeps as it is:

- `mount_layer` and `mount_pkg_cache` do not check for an active stack. They overwrite the recorded stack without unmounting it (`Scenarios.MountOverActiveStack`).
- A session creates its directories in its constructor, not on entry. On exit the pid guard runs first and can end the process without unmounting.
- `if not self._base_layer_dir` is a test for `None`, because a `Path` is always truthy. The base layer is therefore an `Option<Path>`.

## Model

| member | source | states |
|---|---|---|
| `LayerStack.LayerDirs` | craft_parts/overlays/overlay_manager.py:56 | the layer directories are exactly `part_layer_dir` of each part, in part order, one per part |
| `LayerStack.IndexOf` | craft_parts/overlays/overlay_manager.py:74 | `list.index`: the returned position holds the part and no earlier position does |
| `LayerStack.Reverse` | craft_parts/overlays/overlay_manager.py:78-79 | `list.reverse`: same length, element `i` is element `n-1-i` of the input |
| `LayerStack.LayerLowers` | craft_parts/overlays/overlay_manager.py:69-79 | the lowers built as `[base] + [pkg dir if cache] + layer_dirs[0:index]` and then reversed: length `index + 1 + (cache ? 1 : 0)`, the base is last, the layer of part `index-1-k` is at position `k`, and with the cache enabled the packages dir sits just above the base |
| `LayerStack.LowersTopFirst` | craft_parts/overlays/overlay_manager.py:69-79 | read top-down, the lowers are the earlier parts' layers, nearest first, then the cache layer if enabled, then the base |
| `LayerStack.PartLayerStack` | craft_parts/overlays/overlay_manager.py:69-85 | the stack for a part (first occurrence at `index`): its upper is that part's own layer dir, the work dir is `overlay_work_dir`, the mount point is `overlay_mount_dir`, and the lowers are as in `LayerLowers`, expressed over the parts |
| `LayerStack.UpperNotALower` | craft_parts/overlays/overlay_manager.py:74-79 | when the layer directories, the base and the cache dir are all distinct, the upper directory never appears among the lowers |
| `LayerStack.ExampleTopPartWithoutCache` | craft_parts/overlays/overlay_manager.py:69-85 | parts A,B,C without the cache: the stack for C is lowers `[LB, LA, BASE]`, upper `LC` |
| `LayerStack.ExampleMiddlePartWithCache` | craft_parts/overlays/overlay_manager.py:69-85 | parts A,B,C with the cache: the stack for B is lowers `[LA, CACHE, BASE]`, upper `LB` |
| `Overlays.ResolvConfFixed` | craft_parts/overlays/overlay_manager.py:170-173 | a symlinked resolver file becomes an empty regular file; a regular or absent one is left untouched; the set of paths and every other path are unchanged |
| `Overlays.ResolvConfNotSymlinkAfterFix` | craft_parts/overlays/overlay_manager.py:170-173 | after the fix-up the resolver file is not a symlink, and if it existed it is a regular file |
| `Overlays.ResolvConfFixIdempotent` | craft_parts/overlays/overlay_manager.py:170-173 | a second fix-up changes nothing and makes no calls |
| `Overlays.OverlayManager.constructor` | craft_parts/overlays/overlay_manager.py:47-58 | records the project info, parts and base layer; the layer dirs are fixed from the parts; nothing is mounted |
| `Overlays.OverlayManager.MountLayer` | craft_parts/overlays/overlay_manager.py:60-87 | without a base layer: raises the "without a base layer" error for any part, in the list or not, and the mount state and host are unchanged; otherwise the active stack becomes `PartLayerStack(...)` for the part and cache flag, and exactly one overlay mount of it is recorded; an active stack is overwritten |
| `Overlays.OverlayManager.MountPkgCache` | craft_parts/overlays/overlay_manager.py:89-102 | without a base layer: raises the package-cache error, and the mount state and host are unchanged; otherwise the active stack is lowers `[base]`, upper `overlay_packages_dir`, the shared work dir and the shared mount point, and it is mounted once |
| `Overlays.OverlayManager.Unmount` | craft_parts/overlays/overlay_manager.py:104-110 | raises "filesystem is not mounted" and records nothing when nothing is mounted; otherwise records one unmount of the active stack; either way the state is unmounted afterwards |
| `Overlays.OverlayManager.Mkdirs` | craft_parts/overlays/overlay_manager.py:112-119 | asks for the mount, packages and work directories, in this order, and for nothing else |
| `Overlays.OverlayManager.RefreshPackagesList` | craft_parts/overlays/overlay_manager.py:121-131 | raises "overlay filesystem not mounted" when not mounted and records nothing; otherwise records one refresh in a chroot at the mount dir; the mount state is never changed |
| `Overlays.OverlayManager.DownloadPackages` | craft_parts/overlays/overlay_manager.py:133-143 | the same not-mounted error; otherwise records one download of the given names in a chroot at the mount dir; the mount state is unchanged |
| `Overlays.OverlayManager.InstallPackages` | craft_parts/overlays/overlay_manager.py:145-156 | the same not-mounted error; otherwise records an install of the given names and then the removal of `/var/cache`, both in a chroot at the mount dir; the mount state is unchanged |
| `Overlays.OverlayManager.FixResolvConf` | craft_parts/overlays/overlay_manager.py:158-173 | the files become `ResolvConfFixed` of the old files at `<mount_dir>/etc/resolv.conf`; the call is an unlink then a touch, only when that path was a symlink |
| `Environment.Host.UnlinkPath` | craft_parts/overlays/overlay_manager.py:172 | removes exactly that path, and records the unlink |
| `Environment.Host.TouchPath` | craft_parts/overlays/overlay_manager.py:173 | on a path that does not exist (it has just been unlinked), creates an empty regular file there and changes no other path; records the touch |
| `Overlays.LayerMount.constructor` | craft_parts/overlays/overlay_manager.py:184-194 | calls `mkdirs` (three directory requests) and records the manager, top part, cache flag (default `true`) and pid |
| `Overlays.LayerMount.Enter` | craft_parts/overlays/overlay_manager.py:196-202 | `mount_layer(top_part, pkg_cache)` first; if it raises (no base layer, whatever the top part), nothing changes and the fix-up does not run; otherwise the trace is the mount and then the fix-up calls, and the files are fixed |
| `Overlays.LayerMount.Exit` | craft_parts/overlays/overlay_manager.py:204-209 | with a different pid, the process exits and the manager and host are untouched; with the same pid, exactly one unmount runs and exit returns `false`, or the unmount's "not mounted" error propagates |
| `Overlays.LayerMount.InstallPackages` | craft_parts/overlays/overlay_manager.py:211-216 | passes through to the manager's `install_packages`, with the same error and trace |
| `Overlays.PackageCacheMount.constructor` | craft_parts/overlays/overlay_manager.py:225-228 | calls `mkdirs` and records the manager and pid |
| `Overlays.PackageCacheMount.Enter` | craft_parts/overlays/overlay_manager.py:230-233 | `mount_pkg_cache()` first; if it raises, nothing changes; otherwise the trace is the two-layer mount and then the fix-up calls |
| `Overlays.PackageCacheMount.Exit` | craft_parts/overlays/overlay_manager.py:235-240 | the pid guard comes before the unmount; with the same pid, one unmount runs and exit returns `false`, or the error propagates |
| `Overlays.PackageCacheMount.RefreshPackagesList` | craft_parts/overlays/overlay_manager.py:242-244 | passes through to the manager's `refresh_packages_list` |
| `Overlays.PackageCacheMount.DownloadPackages` | craft_parts/overlays/overlay_manager.py:246-251 | passes through to the manager's `download_packages` |
| `Scenarios.UnmountTwice` | craft_parts/overlays/overlay_manager.py:104-110 | after a mount, the first unmount succeeds and the second raises "filesystem is not mounted"; only one unmount is recorded |
| `Scenarios.InstallInLayerSession` | craft_parts/overlays/overlay_manager.py:176-216 | a whole `LayerMount` block left by its own process: mkdirs, mount for the part with the cache, fix-up, install, `/var/cache` removal, one unmount of the same stack, ending unmounted with `false` returned |
| `Scenarios.DownloadInPackageCacheSession` | craft_parts/overlays/overlay_manager.py:219-251 | a whole `PackageCacheMount` block: mkdirs, cache mount, fix-up, refresh, download, one unmount, ending unmounted |
| `Scenarios.LeakedChildLeavesSession` | craft_parts/overlays/overlay_manager.py:204-209 | a leaked child's exit ends the process, so the stack stays mounted and no unmount is recorded |
| `Scenarios.MountOverActiveStack` | craft_parts/overlays/overlay_manager.py:81-87 | a second `mount_layer` while mounted succeeds and replaces the active stack; both mounts are recorded, with no unmount between them |

## Left out

- The union-mount primitive `OverlayFS` (`overlay_fs` module) is not part of this model. Its `mount` and `unmount` are recorded `OverlayMount`/`OverlayUnmount` calls that always succeed. Their failures, and how a mount changes what is visible under the mount point, are not modelled.
- `pychroot.Chroot` and `packages.Repository` are foreign calls. Each package operation is one recorded call naming the chroot root; its effect on the files and its failures are not modelled. Suppressing `SystemExit` inside the chroot is modelled as the call returning normally.
- `shutil.rmtree("/var/cache", ignore_errors=True)` is a recorded call that always returns normally (best effort).
- `Path.mkdir(parents=True, exist_ok=True)` is a recorded `MakeDir` call. The directories it creates and its errors are not modelled.
- `os.getpid()` is a parameter (the session's `pid` at construction, `currentPid` at exit). `sys.exit()` is the terminal outcome `ProcessExit`.
- `ValueError` from `list.index` for a part missing from the part list. When a base layer is configured, `MountLayer` and `LayerMount.Enter` require the part to be in the list. Without a base layer they take any part, because the base-layer error is raised before the lookup.
- The parts are an immutable sequence fixed at construction. The source keeps a reference to the caller's `part_list` but computes the layer directories once. So if the caller later appends to or reorders that list, the part index and the layer directories can disagree, and an appended part can raise an `IndexError`. Those later changes are not modelled.
- The exception arguments of `__exit__` are ignored, as in the source; only the return value `false` (do not suppress) is modelled. `__enter__` returning `self` is not modelled.
- Python's in-place `append`, `extend` and `reverse` on the local list `lowers` are modelled as reassigning a sequence.
- Parts are compared by value (`Part(name, partLayerDir)`). Python's `list.index` uses the `Part` class's own equality, which is not part of this model.
- Logging.
