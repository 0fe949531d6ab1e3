/** Strategy detection (`DetectAndBuild`, `buildFromManifest`): an explicit
    `mcp.json` wins, otherwise the first marker file found decides between the
    Node, Python and Go strategies. The repository path is taken as already
    absolute. */
module Builder {
  import opened Common
  import opened BuildTypes
  import NodeBuild
  import PythonBuild
  import GoBuild

  /** The manifest at `p`, as reading and decoding it yields. A path the
      machine has no contents for cannot be read. */
  function ManifestAt(m: Machine, p: string): ManifestFile {
    if p in m.manifests then m.manifests[p] else ManifestUnreadable("no contents")
  }

  /** `buildFromManifest`: read and decode, run the optional build command,
      and take the launch fields literally. */
  function FromManifest(m: Machine, path: string): (b: Built)
    ensures ManifestAt(m, Join(path, "mcp.json")).ManifestUnreadable? ==>
      b == Built(Err(ManifestReadFailed(ManifestAt(m, Join(path, "mcp.json")).reason)), [])
    ensures ManifestAt(m, Join(path, "mcp.json")).ManifestMalformed? ==>
      b == Built(Err(InvalidManifest(ManifestAt(m, Join(path, "mcp.json")).reason)), [])
    ensures ManifestAt(m, Join(path, "mcp.json")).ManifestDecoded? ==>
      var mf := ManifestAt(m, Join(path, "mcp.json")).manifest;
      && b.ran == (if mf.buildCmd == "" then [] else [mf.buildCmd])
      && (b.result.Err? <==> mf.buildCmd != "" && mf.buildCmd in m.failing)
      && (b.result.Err? ==> b.result.error == CommandFailed(mf.buildCmd, m.failing[mf.buildCmd]))
      && (b.result.Ok? ==> b.result.value == BuildResult(mf.runCmd, mf.args, mf.requiredEnv))
  {
    match ManifestAt(m, Join(path, "mcp.json"))
    case ManifestUnreadable(reason) => Built(Err(ManifestReadFailed(reason)), [])
    case ManifestMalformed(reason) => Built(Err(InvalidManifest(reason)), [])
    case ManifestDecoded(mf) =>
      var step := RunShell(m, mf.buildCmd);
      if step.failure.Some? then Built(Err(CommandFailed(mf.buildCmd, step.failure.value)), step.ran)
      else Built(Ok(BuildResult(mf.runCmd, mf.args, mf.requiredEnv)), step.ran)
  }

  /** `DetectAndBuild`, as the source writes it: an if-chain over marker files. */
  function DetectAndBuild(m: Machine, path: string): (b: Built)
    ensures Exists(m, Join(path, "mcp.json")) ==> b == FromManifest(m, path)
  {
    if Exists(m, Join(path, "mcp.json")) then FromManifest(m, path)
    else if Exists(m, Join(path, "package.json")) then NodeBuild.NodeBuild(m, path)
    else if Exists(m, Join(path, "pyproject.toml")) || Exists(m, Join(path, "requirements.txt")) then PythonBuild.PythonBuild(m, path)
    else if Exists(m, Join(path, "go.mod")) then GoBuild.GoBuild(m, path)
    else Built(Err(NoProjectType), [])
  }

  // ---- an independent reference: a priority registry ----------------------

  datatype Strategy = UseManifest | UseNode | UsePython | UseGo

  /** Marker files and the strategy each group selects, highest priority first. */
  const Registry: seq<(seq<string>, Strategy)> := [
    (["mcp.json"], UseManifest),
    (["package.json"], UseNode),
    (["pyproject.toml", "requirements.txt"], UsePython),
    (["go.mod"], UseGo)]

  predicate AnyMarker(m: Machine, path: string, markers: seq<string>) {
    exists i :: 0 <= i < |markers| && Exists(m, Join(path, markers[i]))
  }

  /** The strategy of the first registry entry with a marker present. */
  function Detect(m: Machine, path: string, registry: seq<(seq<string>, Strategy)>): (s: Option<Strategy>)
    ensures s.None? <==> forall i :: 0 <= i < |registry| ==> !AnyMarker(m, path, registry[i].0)
    ensures s.Some? ==>
      exists i :: 0 <= i < |registry| && registry[i].1 == s.value
        && AnyMarker(m, path, registry[i].0)
        && forall j :: 0 <= j < i ==> !AnyMarker(m, path, registry[j].0)
  {
    if |registry| == 0 then None
    else if AnyMarker(m, path, registry[0].0) then Some(registry[0].1)
    else
      var s := Detect(m, path, registry[1..]);
      assert forall i :: 1 <= i < |registry| ==> registry[i] == registry[1..][i - 1];
      if s.Some? then
        var i :| 0 <= i < |registry| - 1 && registry[1..][i].1 == s.value
          && AnyMarker(m, path, registry[1..][i].0)
          && forall j :: 0 <= j < i ==> !AnyMarker(m, path, registry[1..][j].0);
        assert registry[i + 1].1 == s.value;
        s
      else s
  }

  function Run(s: Strategy, m: Machine, path: string): Built {
    match s
    case UseManifest => FromManifest(m, path)
    case UseNode => NodeBuild.NodeBuild(m, path)
    case UsePython => PythonBuild.PythonBuild(m, path)
    case UseGo => GoBuild.GoBuild(m, path)
  }

  // ---- properties ---------------------------------------------------------

  /** The if-chain is the registry: the first group with a marker present
      decides, and with no marker nothing runs. */
  lemma {:induction false} DispatchFollowsRegistry(m: Machine, path: string)
    ensures DetectAndBuild(m, path) == match Detect(m, path, Registry)
      case None => Built(Err(NoProjectType), [])
      case Some(s) => Run(s, m, path)
  {
    var r := Registry;
    assert AnyMarker(m, path, r[0].0) <==> Exists(m, Join(path, "mcp.json")) by {
      assert r[0].0[0] == "mcp.json";
    }
    assert AnyMarker(m, path, r[1].0) <==> Exists(m, Join(path, "package.json")) by {
      assert r[1].0[0] == "package.json";
    }
    assert AnyMarker(m, path, r[2].0) <==>
      Exists(m, Join(path, "pyproject.toml")) || Exists(m, Join(path, "requirements.txt")) by {
      assert r[2].0[0] == "pyproject.toml" && r[2].0[1] == "requirements.txt";
    }
    assert AnyMarker(m, path, r[3].0) <==> Exists(m, Join(path, "go.mod")) by {
      assert r[3].0[0] == "go.mod";
    }
    assert r[1..][1..][1..][1..] == [];
  }

  /** No marker file: detection fails and no shell command ever runs. */
  lemma NoMarkerRunsNothing(m: Machine, path: string)
    requires forall i :: 0 <= i < |Registry| ==> !AnyMarker(m, path, Registry[i].0)
    ensures DetectAndBuild(m, path) == Built(Err(NoProjectType), [])
  {
    DispatchFollowsRegistry(m, path);
  }

  /** Only a manifest can ask for environment variables: every heuristic
      strategy's successful result has none. */
  lemma HeuristicsNeedNoEnv(m: Machine, path: string)
    requires !Exists(m, Join(path, "mcp.json"))
    requires DetectAndBuild(m, path).result.Ok?
    ensures DetectAndBuild(m, path).result.value.envNeeds == []
  {
  }

  /** A repository with `requirements.txt` and `main.py` and no manifest or
      package.json launches the environment's interpreter on `main.py`. */
  lemma {:induction false} PythonScenario(m: Machine, path: string)
    requires !Exists(m, Join(path, "mcp.json")) && !Exists(m, Join(path, "package.json"))
    requires Exists(m, Join(path, "requirements.txt")) && Exists(m, Join(path, "main.py"))
    requires PythonBuild.Python3Venv !in m.failing
    requires PythonBuild.DepsCommand(m, path) !in m.failing
    ensures DetectAndBuild(m, path).result ==
      Ok(BuildResult(PythonBuild.PythonPath(path, m.windows), [Join(path, "main.py")], []))
  {
    var cands := PythonBuild.ExistingCandidates(m, path);
    assert cands[0] == "main.py";
    FirstNonEmptyAt(cands, 0);
  }

  /** A single-package Node repository whose package.json declares
      `dist/index.js` as `main`, with that file built, launches `node` on it. */
  lemma NodeScenario(m: Machine, path: string)
    requires path != ""
    requires !Exists(m, Join(path, "mcp.json")) && Exists(m, Join(path, "package.json"))
    requires !Exists(m, Join(path, "packages"))
    requires PackageJsonAt(m, Join(path, "package.json")).main == "dist/index.js"
    requires Exists(m, Join(path, "dist/index.js"))
    requires NodeBuild.Manager(m, path) + " install" !in m.failing
    requires "build" !in PackageJsonAt(m, Join(path, "package.json")).scripts
    ensures DetectAndBuild(m, path).result == Ok(BuildResult("node", [Join(path, "dist/index.js")], []))
  {
    assert Join("dist", "index.js") == "dist/index.js";
    assert Join3(path, "dist", "index.js") == Join(path, "dist/index.js") by {
      assert (path + "/" + "dist") + "/" + "index.js" == path + "/" + "dist/index.js";
    }
  }
}
