/** The Node strategy (`buildNode`, `findMonorepoEntry`): choose a package
    manager, install, run the `build` script when there is one, and resolve the
    entry point, looking into `packages/` first when the repository is a monorepo. */
module NodeBuild {
  import opened Common
  import opened BuildTypes

  /** Sub-package names a monorepo's server is looked for under, in order. */
  const McpDirs: seq<string> := ["mcp", "server", "mcp-server"]

  // ---- specification ------------------------------------------------------

  /** The package manager: pnpm when its lock file exists and it is installed,
      otherwise yarn on the same terms, otherwise npm. */
  function Manager(m: Machine, path: string): string {
    if Exists(m, Join(path, "pnpm-lock.yaml")) && CommandExists(m, "pnpm") then "pnpm"
    else if Exists(m, Join(path, "yarn.lock")) && CommandExists(m, "yarn") then "yarn"
    else "npm"
  }

  /** The sub-package's package.json declares a `main` file that exists. */
  predicate DeclaresMain(m: Machine, pkgPath: string) {
    var main := PackageJsonAt(m, Join(pkgPath, "package.json")).main;
    Exists(m, Join(pkgPath, "package.json")) && main != "" && Exists(m, Join(pkgPath, main))
  }

  /** What one known sub-package offers: its compiled `dist/index.js`, else the
      `main` its package.json declares if that file exists, else `src/index.js`;
      "" when the sub-package is absent or offers none of them. */
  function PackageEntry(m: Machine, pkgPath: string): (e: string)
    ensures e != "" ==> Exists(m, e)
    ensures var dist := Join3(pkgPath, "dist", "index.js");
      var main := Join(pkgPath, PackageJsonAt(m, Join(pkgPath, "package.json")).main);
      var src := Join3(pkgPath, "src", "index.js");
      && (!Exists(m, pkgPath) ==> e == "")
      && (Exists(m, pkgPath) && Exists(m, dist) ==> e == dist)
      && (Exists(m, pkgPath) && !Exists(m, dist) && DeclaresMain(m, pkgPath) ==> e == main)
      && (Exists(m, pkgPath) && !Exists(m, dist) && !DeclaresMain(m, pkgPath) ==> e == (if Exists(m, src) then src else ""))
  {
    var dist := Join3(pkgPath, "dist", "index.js");
    var pkgJson := Join(pkgPath, "package.json");
    var main := PackageJsonAt(m, pkgJson).main;
    var src := Join3(pkgPath, "src", "index.js");
    if !Exists(m, pkgPath) then ""
    else if Exists(m, dist) then dist
    else if DeclaresMain(m, pkgPath) then Join(pkgPath, main)
    else if Exists(m, src) then src
    else ""
  }

  function KnownEntries(m: Machine, packagesDir: string): (es: seq<string>)
    ensures |es| == |McpDirs|
    ensures forall i :: 0 <= i < |McpDirs| ==> es[i] == PackageEntry(m, Join(packagesDir, McpDirs[i]))
  {
    seq(|McpDirs|, i requires 0 <= i < |McpDirs| => PackageEntry(m, Join(packagesDir, McpDirs[i])))
  }

  /** A package looks like a server when its name mentions "mcp" or it declares a binary. */
  predicate LooksLikeServer(pkg: PackageJson) {
    Contains(pkg.name, "mcp") || pkg.hasBin
  }

  /** What the fallback scan takes from one directory entry: the compiled
      `dist/index.js` of a sub-package that looks like a server, else "". */
  function ScanCandidate(m: Machine, packagesDir: string, entry: DirEntry): (e: string)
    ensures e != "" ==> Exists(m, e) && entry.isDir
    ensures e != "" ==> var pkgPath := Join(packagesDir, entry.name);
      && Exists(m, Join(pkgPath, "package.json"))
      && LooksLikeServer(PackageJsonAt(m, Join(pkgPath, "package.json")))
      && e == Join3(pkgPath, "dist", "index.js")
  {
    var pkgPath := Join(packagesDir, entry.name);
    var pkgJson := Join(pkgPath, "package.json");
    var dist := Join3(pkgPath, "dist", "index.js");
    if entry.isDir && Exists(m, pkgJson) && LooksLikeServer(PackageJsonAt(m, pkgJson)) && Exists(m, dist)
    then dist else ""
  }

  function ScanEntries(m: Machine, packagesDir: string, entries: seq<DirEntry>): (es: seq<string>)
    ensures |es| == |entries|
    ensures forall i :: 0 <= i < |entries| ==> es[i] == ScanCandidate(m, packagesDir, entries[i])
  {
    seq(|entries|, i requires 0 <= i < |entries| => ScanCandidate(m, packagesDir, entries[i]))
  }

  /** The monorepo entry: the first known sub-package's entry, else the first
      scanned server-like sub-package's `dist/index.js`, else "". */
  function MonorepoEntry(m: Machine, path: string): (e: string)
    ensures e != "" ==> Exists(m, e)
  {
    var packagesDir := Join(path, "packages");
    var known := FirstNonEmpty(KnownEntries(m, packagesDir));
    if known != "" then known
    else FirstNonEmpty(ScanEntries(m, packagesDir, ReadDir(m, packagesDir)))
  }

  /** Single-package resolution: `dist/index.js`, then `build/index.js`, then
      the declared `main`, then `index.js`, all relative to the repository. */
  function SingleEntry(m: Machine, path: string, main: string): string {
    if Exists(m, Join3(path, "dist", "index.js")) then Join(path, Join("dist", "index.js"))
    else if Exists(m, Join3(path, "build", "index.js")) then Join(path, Join("build", "index.js"))
    else if main != "" then Join(path, main)
    else Join(path, "index.js")
  }

  /** The entry `buildNode` launches: the monorepo entry when `packages/`
      exists and yields one, else the single-package entry. */
  function Entry(m: Machine, path: string, main: string): string {
    var mono := if Exists(m, Join(path, "packages")) then MonorepoEntry(m, path) else "";
    if mono != "" then mono else SingleEntry(m, path, main)
  }

  /** The Node strategy as a whole. It runs `<mgr> install`, then `<mgr> run build`
      exactly when the install succeeded and `scripts` has a `build` key; the first
      failing command aborts with its output and no result. A success launches
      `node` on the resolved entry and needs no environment. */
  function NodeBuild(m: Machine, path: string): (b: Built)
    ensures var mgr := Manager(m, path);
      var install := mgr + " install";
      var build := mgr + " run build";
      var scripts := PackageJsonAt(m, Join(path, "package.json")).scripts;
      && b.ran == [install] + (if install !in m.failing && "build" in scripts then [build] else [])
      && (b.result.Err? <==> install in m.failing || ("build" in scripts && build in m.failing))
      && (b.result.Err? ==> b.result.error == CommandFailed(b.ran[|b.ran| - 1], m.failing[b.ran[|b.ran| - 1]]))
    ensures b.result.Ok? ==>
      && b.result.value.command == "node" && b.result.value.envNeeds == []
      && b.result.value.args == [Entry(m, path, PackageJsonAt(m, Join(path, "package.json")).main)]
  {
    var mgr := Manager(m, path);
    var install := RunShell(m, mgr + " install");
    if install.failure.Some? then Built(Err(CommandFailed(mgr + " install", install.failure.value)), install.ran)
    else
      var pkg := PackageJsonAt(m, Join(path, "package.json"));
      var build := if "build" in pkg.scripts then RunShell(m, mgr + " run build") else Step(None, []);
      if build.failure.Some? then Built(Err(CommandFailed(mgr + " run build", build.failure.value)), install.ran + build.ran)
      else Built(Ok(BuildResult("node", [Entry(m, path, pkg.main)], [])), install.ran + build.ran)
  }

  // ---- properties ---------------------------------------------------------

  /** A known sub-package wins over the scan, and among known sub-packages the
      first in `McpDirs` order that offers an entry wins. */
  lemma {:induction false} KnownPackageOrder(m: Machine, path: string, i: nat)
    requires i < |McpDirs|
    requires PackageEntry(m, Join3(path, "packages", McpDirs[i])) != ""
    requires forall j :: 0 <= j < i ==> PackageEntry(m, Join3(path, "packages", McpDirs[j])) == ""
    ensures MonorepoEntry(m, path) == PackageEntry(m, Join3(path, "packages", McpDirs[i]))
  {
    var known := KnownEntries(m, Join(path, "packages"));
    FirstNonEmptyAt(known, i);
  }

  /** The scan only ever yields the compiled entry of a directory whose
      package.json names an "mcp" package or declares a binary; with no such
      sub-package (and no known one) the search comes back empty. */
  lemma {:induction false} ScanYieldsServerLikePackage(m: Machine, path: string)
    requires FirstNonEmpty(KnownEntries(m, Join(path, "packages"))) == ""
    ensures var packagesDir := Join(path, "packages");
      var e := MonorepoEntry(m, path);
      && (e != "" ==>
            exists d :: d in ReadDir(m, packagesDir) && d.isDir
              && LooksLikeServer(PackageJsonAt(m, Join3(packagesDir, d.name, "package.json")))
              && e == Join3(Join(packagesDir, d.name), "dist", "index.js"))
      && (e == "" <==> forall d :: d in ReadDir(m, packagesDir) ==> ScanCandidate(m, packagesDir, d) == "")
  {
    var packagesDir := Join(path, "packages");
    var entries := ReadDir(m, packagesDir);
    var scanned := ScanEntries(m, packagesDir, entries);
    var e := MonorepoEntry(m, path);
    assert e == FirstNonEmpty(scanned);
    if e != "" {
      var i :| 0 <= i < |scanned| && scanned[i] == e && forall j :: 0 <= j < i ==> scanned[j] == "";
      assert entries[i] in entries;
    }
    assert (forall i :: 0 <= i < |scanned| ==> scanned[i] == "")
      <==> (forall d :: d in entries ==> ScanCandidate(m, packagesDir, d) == "");
  }

  /** `filepath.Join(path, filepath.Join("dist", "index.js"))` is the path of
      `dist/index.js` under `path`. */
  lemma JoinNested(path: string, dir: string)
    requires dir != ""
    ensures Join(path, Join(dir, "index.js")) == Join3(path, dir, "index.js")
  {
    if path != "" {
      assert path + "/" + (dir + "/" + "index.js") == (path + "/" + dir) + "/" + "index.js";
    }
  }

  /** Single-package precedence: compiled `dist/index.js`, then compiled
      `build/index.js`, each only when it exists; otherwise the declared
      `main`, else `index.js`, whether or not that file exists. */
  lemma SingleEntryPrecedence(m: Machine, path: string, main: string)
    ensures var e := SingleEntry(m, path, main);
      var dist := Join3(path, "dist", "index.js");
      var build := Join3(path, "build", "index.js");
      && (Exists(m, dist) ==> e == dist)
      && (!Exists(m, dist) && Exists(m, build) ==> e == build)
      && (!Exists(m, dist) && !Exists(m, build) ==> e == Join(path, if main != "" then main else "index.js"))
  {
    JoinNested(path, "dist");
    JoinNested(path, "build");
  }

  /** The monorepo search comes first, and only when `packages/` exists; an
      empty result falls back to single-package resolution. */
  lemma MonorepoFirst(m: Machine, path: string, main: string)
    ensures Exists(m, Join(path, "packages")) && MonorepoEntry(m, path) != "" ==>
      Entry(m, path, main) == MonorepoEntry(m, path)
    ensures !Exists(m, Join(path, "packages")) || MonorepoEntry(m, path) == "" ==>
      Entry(m, path, main) == SingleEntry(m, path, main)
  {
  }

  /** What a successful Node build launches exists on disk, except for the
      uncompiled fallback: the declared `main` (or `index.js`) at the
      repository root is used without checking that it is there. */
  lemma LaunchedEntry(m: Machine, path: string)
    requires NodeBuild(m, path).result.Ok?
    ensures var arg := NodeBuild(m, path).result.value.args[0];
      var main := PackageJsonAt(m, Join(path, "package.json")).main;
      Exists(m, arg) || arg == Join(path, if main != "" then main else "index.js")
  {
    var main := PackageJsonAt(m, Join(path, "package.json")).main;
    SingleEntryPrecedence(m, path, main);
    MonorepoFirst(m, path, main);
  }

  // ---- implementation -----------------------------------------------------

  /** One iteration of the first loop of `findMonorepoEntry`: what a known
      sub-package offers, tried in the source's order. */
  method ProbePackage(m: Machine, pkgPath: string) returns (entry: string)
    ensures entry == PackageEntry(m, pkgPath)
  {
    if !Exists(m, pkgPath) {
      return "";
    }
    var distEntry := Join3(pkgPath, "dist", "index.js");
    if Exists(m, distEntry) {
      return distEntry;
    }
    var pkgJson := Join(pkgPath, "package.json");
    if Exists(m, pkgJson) {
      var pkg := PackageJsonAt(m, pkgJson);
      if pkg.main != "" {
        var mainPath := Join(pkgPath, pkg.main);
        if Exists(m, mainPath) {
          return mainPath;
        }
      }
    }
    var srcEntry := Join3(pkgPath, "src", "index.js");
    if Exists(m, srcEntry) {
      return srcEntry;
    }
    return "";
  }

  /** The second loop of `findMonorepoEntry`: scan `packages/` for a
      server-like sub-package with a compiled entry. */
  method ScanPackages(m: Machine, packagesDir: string) returns (entry: string)
    ensures entry == FirstNonEmpty(ScanEntries(m, packagesDir, ReadDir(m, packagesDir)))
  {
    var entries := ReadDir(m, packagesDir);
    ghost var scanned := ScanEntries(m, packagesDir, entries);
    var k := 0;
    while k < |entries|
      invariant 0 <= k <= |entries|
      invariant forall j :: 0 <= j < k ==> scanned[j] == ""
    {
      var dirEntry := entries[k];
      assert scanned[k] == ScanCandidate(m, packagesDir, dirEntry);
      if dirEntry.isDir {
        var pkgPath := Join(packagesDir, dirEntry.name);
        var pkgJson := Join(pkgPath, "package.json");
        if Exists(m, pkgJson) {
          var pkg := PackageJsonAt(m, pkgJson);
          if LooksLikeServer(pkg) {
            var distEntry := Join3(pkgPath, "dist", "index.js");
            if Exists(m, distEntry) {
              FirstNonEmptyAt(scanned, k);
              return distEntry;
            }
          }
        }
      }
      assert scanned[k] == "";
      k := k + 1;
    }
    return "";
  }

  /** `findMonorepoEntry`: two search loops, each returning on its first hit. */
  method FindMonorepoEntry(m: Machine, path: string) returns (entry: string)
    ensures entry == MonorepoEntry(m, path)
  {
    var packagesDir := Join(path, "packages");
    ghost var known := KnownEntries(m, packagesDir);
    var i := 0;
    while i < |McpDirs|
      invariant 0 <= i <= |McpDirs|
      invariant forall j :: 0 <= j < i ==> known[j] == ""
    {
      var found := ProbePackage(m, Join(packagesDir, McpDirs[i]));
      assert known[i] == found;
      if found != "" {
        FirstNonEmptyAt(known, i);
        return found;
      }
      i := i + 1;
    }
    entry := ScanPackages(m, packagesDir);
  }

  /** `buildNode`: the manager is chosen by successive reassignment (yarn, then
      pnpm overriding it) and the entry file likewise (`main`, then `dist/` or
      `build/` overriding it). */
  method BuildNode(m: Machine, path: string) returns (b: Built)
    ensures b == NodeBuild(m, path)
  {
    var mgr := "npm";
    if Exists(m, Join(path, "yarn.lock")) && CommandExists(m, "yarn") {
      mgr := "yarn";
    }
    if Exists(m, Join(path, "pnpm-lock.yaml")) && CommandExists(m, "pnpm") {
      mgr := "pnpm";
    }

    var install := RunShell(m, mgr + " install");
    if install.failure.Some? {
      return Built(Err(CommandFailed(mgr + " install", install.failure.value)), install.ran);
    }
    var ran := install.ran;

    var pkg := PackageJsonAt(m, Join(path, "package.json"));
    if "build" in pkg.scripts {
      var build := RunShell(m, mgr + " run build");
      ran := ran + build.ran;
      if build.failure.Some? {
        return Built(Err(CommandFailed(mgr + " run build", build.failure.value)), ran);
      }
    }

    var absEntry := "";
    if Exists(m, Join(path, "packages")) {
      absEntry := FindMonorepoEntry(m, path);
    }
    if absEntry == "" {
      var entryFile := "index.js";
      if pkg.main != "" {
        entryFile := pkg.main;
      }
      if Exists(m, Join3(path, "dist", "index.js")) {
        entryFile := Join("dist", "index.js");
      } else if Exists(m, Join3(path, "build", "index.js")) {
        entryFile := Join("build", "index.js");
      }
      absEntry := Join(path, entryFile);
    }
    return Built(Ok(BuildResult("node", [absEntry], [])), ran);
  }
}
