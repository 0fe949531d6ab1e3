/** The Python strategy (`buildPython`): create `.venv` (python3, falling back
    to python), install dependencies from `requirements.txt` or else from
    `pyproject.toml`, and take the first entry script that exists. */
module PythonBuild {
  import opened Common
  import opened BuildTypes

  /** Entry scripts, in the order they are tried. */
  const Candidates: seq<string> := ["main.py", "server.py", "app.py", "src/main.py", "src/server.py"]

  const Python3Venv := "python3 -m venv .venv"
  const PythonVenv := "python -m venv .venv"

  /** The environment's pip and interpreter, under `<path>/.venv`. */
  function Pip(path: string, windows: bool): string {
    if windows then Join3(Join(path, ".venv"), "Scripts", "pip.exe") else Join3(Join(path, ".venv"), "bin", "pip")
  }

  function PythonPath(path: string, windows: bool): string {
    if windows then Join3(Join(path, ".venv"), "Scripts", "python.exe") else Join3(Join(path, ".venv"), "bin", "python")
  }

  // ---- specification ------------------------------------------------------

  /** Creating the environment: python3 first, plain python only if that fails;
      the step fails only when both do. */
  function CreateVenv(m: Machine): (s: Step)
    ensures s.ran == [Python3Venv] + (if Python3Venv in m.failing then [PythonVenv] else [])
    ensures s.failure.Some? <==> Python3Venv in m.failing && PythonVenv in m.failing
  {
    var first := RunShell(m, Python3Venv);
    if first.failure.None? then first
    else
      var second := RunShell(m, PythonVenv);
      Step(second.failure, first.ran + second.ran)
  }

  /** The dependency install: requirements.txt takes precedence over
      pyproject.toml; with neither, nothing is installed. */
  function DepsCommand(m: Machine, path: string): string {
    var pip := Pip(path, m.windows);
    if Exists(m, Join(path, "requirements.txt")) then pip + " install -r requirements.txt"
    else if Exists(m, Join(path, "pyproject.toml")) then pip + " install ."
    else ""
  }

  /** Each candidate if it exists under the repository, else "". */
  function ExistingCandidates(m: Machine, path: string): (es: seq<string>)
    ensures |es| == |Candidates|
    ensures forall i :: 0 <= i < |Candidates| ==>
      es[i] == (if Exists(m, Join(path, Candidates[i])) then Candidates[i] else "")
  {
    seq(|Candidates|, i requires 0 <= i < |Candidates| =>
      if Exists(m, Join(path, Candidates[i])) then Candidates[i] else "")
  }

  /** The Python strategy as a whole. A success launches the environment's
      interpreter on one script and needs no environment variables. */
  function PythonBuild(m: Machine, path: string): (b: Built)
    ensures b.result.Ok? ==> var r := b.result.value;
      r.command == PythonPath(path, m.windows) && r.envNeeds == [] && |r.args| == 1
  {
    var venv := CreateVenv(m);
    if venv.failure.Some? then Built(Err(VenvFailed(venv.failure.value)), venv.ran)
    else
      var depsCmd := DepsCommand(m, path);
      var deps := RunShell(m, depsCmd);
      if deps.failure.Some? then Built(Err(CommandFailed(depsCmd, deps.failure.value)), venv.ran + deps.ran)
      else
        var entry := FirstNonEmpty(ExistingCandidates(m, path));
        if entry == "" then Built(Err(NoPythonEntry), venv.ran + deps.ran)
        else Built(Ok(BuildResult(PythonPath(path, m.windows), [Join(path, entry)], [])), venv.ran + deps.ran)
  }

  // ---- properties ---------------------------------------------------------

  /** The environment is created first, and only a double failure is fatal. */
  lemma VenvFallback(m: Machine, path: string)
    ensures var b := PythonBuild(m, path);
      && |b.ran| >= 1 && b.ran[0] == Python3Venv
      && (|b.ran| >= 2 && b.ran[1] == PythonVenv <==> Python3Venv in m.failing)
      && ((b.result.Err? && b.result.error.VenvFailed?) <==> Python3Venv in m.failing && PythonVenv in m.failing)
  {
    var venv := CreateVenv(m);
    var b := PythonBuild(m, path);
    assert b.ran[..|venv.ran|] == venv.ran;
    if Python3Venv !in m.failing && |b.ran| >= 2 {
      var deps := DepsCommand(m, path);
      assert b.ran == [Python3Venv] + (if deps == "" then [] else [deps]);
      assert deps != PythonVenv;
    }
  }

  /** Once the environment exists, exactly the chosen dependency command runs
      (requirements.txt before pyproject.toml, none without either), and its
      failure is fatal. */
  lemma DependencySource(m: Machine, path: string)
    requires CreateVenv(m).failure.None?
    ensures var b := PythonBuild(m, path);
      var deps := DepsCommand(m, path);
      && b.ran == CreateVenv(m).ran + (if deps == "" then [] else [deps])
      && ((b.result.Err? && b.result.error.CommandFailed?) <==> deps != "" && deps in m.failing)
  {
    var deps := DepsCommand(m, path);
    var step := RunShell(m, deps);
    assert step.ran == (if deps == "" then [] else [deps]);
  }

  /** A success names the first candidate, in list order, that exists. */
  lemma {:induction false} EntryIsFirstExisting(m: Machine, path: string)
    requires PythonBuild(m, path).result.Ok?
    ensures var r := PythonBuild(m, path).result.value;
      exists i :: 0 <= i < |Candidates| && r.args[0] == Join(path, Candidates[i])
        && Exists(m, Join(path, Candidates[i]))
        && forall j :: 0 <= j < i ==> !Exists(m, Join(path, Candidates[j]))
  {
    var cands := ExistingCandidates(m, path);
    var entry := FirstNonEmpty(cands);
    var r := PythonBuild(m, path).result.value;
    assert entry != "" && r.args == [Join(path, entry)];
    var i :| 0 <= i < |cands| && cands[i] == entry && forall j :: 0 <= j < i ==> cands[j] == "";
    assert Candidates[i] == entry && Exists(m, Join(path, Candidates[i]));
    forall j | 0 <= j < i
      ensures !Exists(m, Join(path, Candidates[j]))
    {
      assert cands[j] == "" && Candidates[j] != "";
    }
  }

  /** With the environment and dependencies in place, the entry-point error
      is returned exactly when no candidate exists. */
  lemma {:induction false} NoEntryError(m: Machine, path: string)
    requires CreateVenv(m).failure.None?
    requires DepsCommand(m, path) == "" || DepsCommand(m, path) !in m.failing
    ensures PythonBuild(m, path).result == Err(NoPythonEntry) <==>
      forall c :: c in Candidates ==> !Exists(m, Join(path, c))
  {
    var cands := ExistingCandidates(m, path);
    if forall c :: c in Candidates ==> !Exists(m, Join(path, c)) {
      forall i | 0 <= i < |cands| ensures cands[i] == "" {
        assert Candidates[i] in Candidates;
      }
    } else {
      var c :| c in Candidates && Exists(m, Join(path, c));
      var i :| 0 <= i < |Candidates| && Candidates[i] == c;
      assert cands[i] != "";
    }
  }

  // ---- implementation -----------------------------------------------------

  /** `buildPython`: sequential fallback for the environment, then a loop over
      the candidates that stops at the first existing one. */
  method BuildPython(m: Machine, path: string) returns (b: Built)
    ensures b == PythonBuild(m, path)
  {
    var venvPath := Join(path, ".venv");
    var step := RunShell(m, Python3Venv);
    var ran := step.ran;
    if step.failure.Some? {
      step := RunShell(m, PythonVenv);
      ran := ran + step.ran;
      if step.failure.Some? {
        return Built(Err(VenvFailed(step.failure.value)), ran);
      }
    }

    var pipPath := Join3(venvPath, "bin", "pip");
    var pythonPath := Join3(venvPath, "bin", "python");
    if m.windows {
      pipPath := Join3(venvPath, "Scripts", "pip.exe");
      pythonPath := Join3(venvPath, "Scripts", "python.exe");
    }

    if Exists(m, Join(path, "requirements.txt")) {
      var cmd := pipPath + " install -r requirements.txt";
      step := RunShell(m, cmd);
      ran := ran + step.ran;
      if step.failure.Some? {
        return Built(Err(CommandFailed(cmd, step.failure.value)), ran);
      }
    } else if Exists(m, Join(path, "pyproject.toml")) {
      var cmd := pipPath + " install .";
      step := RunShell(m, cmd);
      ran := ran + step.ran;
      if step.failure.Some? {
        return Built(Err(CommandFailed(cmd, step.failure.value)), ran);
      }
    }

    ghost var cands := ExistingCandidates(m, path);
    var entryPoint := "";
    var i := 0;
    while i < |Candidates|
      invariant 0 <= i <= |Candidates|
      invariant entryPoint == ""
      invariant forall j :: 0 <= j < i ==> cands[j] == ""
    {
      if Exists(m, Join(path, Candidates[i])) {
        FirstNonEmptyAt(cands, i);
        entryPoint := Candidates[i];
        break;
      }
      i := i + 1;
    }
    assert entryPoint == FirstNonEmpty(cands);

    if entryPoint == "" {
      return Built(Err(NoPythonEntry), ran);
    }
    return Built(Ok(BuildResult(pythonPath, [Join(path, entryPoint)], [])), ran);
  }
}
