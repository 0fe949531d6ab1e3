/** The Go strategy (`buildGo`): `go build` into a fixed binary name at the
    repository root, which is then run without arguments. */
module GoBuild {
  import opened Common
  import opened BuildTypes

  /** The binary `go build` writes: `mcp-server`, with `.exe` on Windows. */
  function BinaryName(windows: bool): (bin: string)
    ensures windows <==> EndsWith(bin, ".exe")
    ensures TrimSuffix(bin, ".exe") == "mcp-server"
  {
    if windows then "mcp-server.exe" else "mcp-server"
  }

  function BuildCommand(windows: bool): string {
    "go build -o " + BinaryName(windows) + " ."
  }

  /** The Go strategy: exactly one command runs, the build; its failure is
      returned with no result, and a success launches the binary it produced,
      without arguments or environment needs. */
  function GoBuild(m: Machine, path: string): (b: Built)
    ensures b.ran == [BuildCommand(m.windows)]
    ensures b.result.Err? <==> BuildCommand(m.windows) in m.failing
    ensures b.result.Err? ==> b.result.error == CommandFailed(BuildCommand(m.windows), m.failing[BuildCommand(m.windows)])
    ensures b.result.Ok? ==> b.result == Ok(BuildResult(Join(path, BinaryName(m.windows)), [], []))
  {
    var cmd := BuildCommand(m.windows);
    var step := RunShell(m, cmd);
    if step.failure.Some? then Built(Err(CommandFailed(cmd, step.failure.value)), step.ran)
    else Built(Ok(BuildResult(Join(path, BinaryName(m.windows)), [], [])), step.ran)
  }

  /** The command is the binary inside the repository: it ends with the
      binary's name, after a separator when the repository path is given. */
  lemma BinaryInsideRepository(m: Machine, path: string)
    requires GoBuild(m, path).result.Ok?
    ensures var c := GoBuild(m, path).result.value.command;
      EndsWith(c, BinaryName(m.windows)) && (path != "" ==> StartsWith(c, path + "/"))
  {
    var c := GoBuild(m, path).result.value.command;
    var bin := BinaryName(m.windows);
    if path != "" {
      assert c == (path + "/") + bin;
      assert c[..|path + "/"|] == path + "/";
      assert c[|c| - |bin|..] == bin;
    } else {
      assert c == bin;
      assert c[|c| - |bin|..] == bin;
    }
  }
}
