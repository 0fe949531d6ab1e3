/** The records the build strategies exchange (`BuildResult`, `Manifest`,
    `PackageJSON`), the machine the strategies inspect, and the shell runner,
    which is an oracle here: a command either exits zero or fails with its
    combined output. */
module BuildTypes {
  import opened Common

  /** What is needed to launch a server: executable, arguments, and the names of
      environment variables the operator must supply (first declared, first asked). */
  datatype BuildResult = BuildResult(command: string, args: seq<string>, envNeeds: seq<string>)

  /** The optional `mcp.json` at the repository root. */
  datatype Manifest = Manifest(
    kind: string,       // informational: "node", "python", "go"
    buildCmd: string,   // optional shell command run before anything else
    runCmd: string,
    args: seq<string>,
    requiredEnv: seq<string>)

  /** What reading and decoding `mcp.json` yields. */
  datatype ManifestFile =
    | ManifestUnreadable(reason: string)  // `os.ReadFile` failed
    | ManifestMalformed(reason: string)   // `json.Unmarshal` into Manifest failed
    | ManifestDecoded(manifest: Manifest)

  /** The fields of a `package.json` the Node strategy reads. Decoding errors
      are ignored by the source, so an unreadable or malformed file reads as
      the zero value. */
  datatype PackageJson = PackageJson(
    scripts: set<string>,  // the keys of the `scripts` table
    main: string,
    name: string,
    hasBin: bool)          // `bin` is present and not null

  const ZeroPackageJson := PackageJson({}, "", "", false)

  datatype DirEntry = DirEntry(name: string, isDir: bool)

  /** The machine a build runs on. */
  datatype Machine = Machine(
    paths: set<string>,                     // every existing file and directory (`os.Stat` succeeds)
    listings: map<string, seq<DirEntry>>,   // `os.ReadDir` results, in the order it returns them
    packageJsons: map<string, PackageJson>, // decoded `package.json` files by path
    manifests: map<string, ManifestFile>,   // `mcp.json` files by path
    tools: set<string>,                     // executables `exec.LookPath` finds
    failing: map<string, string>,           // shell commands that exit non-zero, with their output
    windows: bool)                          // `runtime.GOOS == "windows"`

  predicate Exists(m: Machine, path: string) {
    path in m.paths
  }

  predicate CommandExists(m: Machine, name: string) {
    name in m.tools
  }

  function PackageJsonAt(m: Machine, path: string): PackageJson {
    if path in m.packageJsons then m.packageJsons[path] else ZeroPackageJson
  }

  /** `os.ReadDir`, errors ignored as the source does: an unlisted directory has no entries. */
  function ReadDir(m: Machine, dir: string): seq<DirEntry> {
    if dir in m.listings then m.listings[dir] else []
  }

  datatype BuildError =
    | NoProjectType                              // no mcp.json, package.json, requirements.txt, pyproject.toml or go.mod
    | ManifestReadFailed(reason: string)
    | InvalidManifest(reason: string)            // "invalid mcp.json: ..."
    | CommandFailed(command: string, output: string)
    | VenvFailed(output: string)                 // "failed to create venv: ..." (output of the fallback)
    | NoPythonEntry                              // "could not auto-detect python entry point"

  /** The outcome of a build together with the shell commands it ran, in order. */
  datatype Built = Built(result: Result<BuildResult, BuildError>, ran: seq<string>)

  /** One shell step: `failure` holds the combined output when the command failed. */
  datatype Step = Step(failure: Option<string>, ran: seq<string>)

  /** `runShellCmd`: an empty command succeeds without running anything; any
      other command runs once and fails exactly when the machine says so. */
  function RunShell(m: Machine, command: string): (s: Step)
    ensures command == "" ==> s == Step(None, [])
    ensures command != "" ==> s.ran == [command]
    ensures command != "" ==> (s.failure.Some? <==> command in m.failing)
  {
    if command == "" then Step(None, [])
    else if command in m.failing then Step(Some(m.failing[command]), [command])
    else Step(None, [command])
  }
}
