/** How the overlay step composes a layer stack: the per-part layer
    directories, the position of the target part, and the lower-directory
    list handed to the union-mount primitive. */
module LayerStack {
  import opened Environment

  /** A part of the project; the overlay step only uses its layer directory. */
  datatype Part = Part(name: string, partLayerDir: Path)

  /** The layer directory of every part, in part order. */
  function LayerDirs(parts: seq<Part>): (dirs: seq<Path>)
    ensures |dirs| == |parts|
    ensures forall i :: 0 <= i < |parts| ==> dirs[i] == parts[i].partLayerDir
  {
    if parts == [] then [] else [parts[0].partLayerDir] + LayerDirs(parts[1..])
  }

  /** The first position of `part` in `parts`. */
  function IndexOf(parts: seq<Part>, part: Part): (index: nat)
    requires part in parts
    ensures index < |parts| && parts[index] == part
    ensures forall j :: 0 <= j < index ==> parts[j] != part
  {
    if parts[0] == part then 0 else 1 + IndexOf(parts[1..], part)
  }

  /** The sequence in the opposite order. */
  function Reverse<T>(s: seq<T>): (r: seq<T>)
    ensures |r| == |s|
    ensures forall i :: 0 <= i < |s| ==> r[i] == s[|s| - 1 - i]
  {
    if s == [] then [] else Reverse(s[1..]) + [s[0]]
  }

  /** The package cache layer, when it is enabled. */
  function CacheLayer(pkgCache: bool, packagesDir: Path): seq<Path> {
    if pkgCache then [packagesDir] else []
  }

  /** The lower directories for the part at `index`: built bottom-up as the
      base layer, the package cache layer if enabled, and the layers of every
      part before `index`, then reversed so the nearest layer wins. */
  function LayerLowers(base: Path, pkgCache: bool, packagesDir: Path, layerDirs: seq<Path>, index: nat): (lowers: seq<Path>)
    requires index <= |layerDirs|
    ensures |lowers| == index + 1 + (if pkgCache then 1 else 0)
    ensures lowers[|lowers| - 1] == base
    ensures forall k :: 0 <= k < index ==> lowers[k] == layerDirs[index - 1 - k]
    ensures pkgCache ==> lowers[index] == packagesDir
  {
    Reverse([base] + CacheLayer(pkgCache, packagesDir) + layerDirs[..index])
  }

  /** Read top-down, the lowers are the earlier parts' layers nearest first,
      then the package cache layer, then the base layer. */
  lemma LowersTopFirst(base: Path, pkgCache: bool, packagesDir: Path, layerDirs: seq<Path>, index: nat)
    requires index <= |layerDirs|
    ensures LayerLowers(base, pkgCache, packagesDir, layerDirs, index)
         == Reverse(layerDirs[..index]) + CacheLayer(pkgCache, packagesDir) + [base]
  {
  }

  /** The stack mounted for `part`: its own layer directory is the upper,
      the layers of the parts before it (plus the cache and the base) are the
      lowers, with the shared work directory and mount point. */
  function PartLayerStack(info: ProjectInfo, base: Path, parts: seq<Part>, part: Part, pkgCache: bool): (fs: OverlayFs)
    requires part in parts
    ensures fs.upperDir == part.partLayerDir
    ensures fs.workDir == info.overlayWorkDir && fs.mountPoint == info.overlayMountDir
    ensures |fs.lowerDirs| == IndexOf(parts, part) + 1 + (if pkgCache then 1 else 0)
    ensures fs.lowerDirs[|fs.lowerDirs| - 1] == base
    ensures forall k :: 0 <= k < IndexOf(parts, part) ==>
              fs.lowerDirs[k] == parts[IndexOf(parts, part) - 1 - k].partLayerDir
    ensures pkgCache ==> fs.lowerDirs[IndexOf(parts, part)] == info.overlayPackagesDir
  {
    var dirs := LayerDirs(parts);
    var index := IndexOf(parts, part);
    OverlayFs(
      LayerLowers(base, pkgCache, info.overlayPackagesDir, dirs, index),
      dirs[index],
      info.overlayWorkDir,
      info.overlayMountDir)
  }

  /** The two-layer stack that populates the package cache. */
  function PackageCacheStack(info: ProjectInfo, base: Path): OverlayFs {
    OverlayFs([base], info.overlayPackagesDir, info.overlayWorkDir, info.overlayMountDir)
  }

  predicate DistinctLayerDirs(parts: seq<Part>) {
    forall i, j :: 0 <= i < j < |parts| ==> parts[i].partLayerDir != parts[j].partLayerDir
  }

  /** When every layer directory is distinct from the others, from the
      base and from the package cache, the upper directory is never also
      one of the lowers. */
  lemma UpperNotALower(info: ProjectInfo, base: Path, parts: seq<Part>, part: Part, pkgCache: bool)
    requires part in parts
    requires DistinctLayerDirs(parts)
    requires forall p :: p in parts ==> p.partLayerDir != base
    requires pkgCache ==> forall p :: p in parts ==> p.partLayerDir != info.overlayPackagesDir
    ensures part.partLayerDir !in PartLayerStack(info, base, parts, part, pkgCache).lowerDirs
  {
  }

  // Worked examples: parts A, B, C with layers LA, LB, LC over base BASE.

  function ExampleInfo(): ProjectInfo {
    ProjectInfo(Child(Root, "mount"), Child(Root, "CACHE"), Child(Root, "work"))
  }

  function ExampleParts(): seq<Part> {
    [Part("A", Child(Root, "LA")), Part("B", Child(Root, "LB")), Part("C", Child(Root, "LC"))]
  }

  /** Without the cache, the stack for C is lowers [LB, LA, BASE] over upper LC. */
  lemma ExampleTopPartWithoutCache()
    ensures PartLayerStack(ExampleInfo(), Child(Root, "BASE"), ExampleParts(), ExampleParts()[2], false)
         == OverlayFs([Child(Root, "LB"), Child(Root, "LA"), Child(Root, "BASE")],
                      Child(Root, "LC"), Child(Root, "work"), Child(Root, "mount"))
  {
  }

  /** With the cache, the stack for B is lowers [LA, CACHE, BASE] over upper LB. */
  lemma ExampleMiddlePartWithCache()
    ensures PartLayerStack(ExampleInfo(), Child(Root, "BASE"), ExampleParts(), ExampleParts()[1], true)
         == OverlayFs([Child(Root, "LA"), Child(Root, "CACHE"), Child(Root, "BASE")],
                      Child(Root, "LB"), Child(Root, "work"), Child(Root, "mount"))
  {
  }
}
