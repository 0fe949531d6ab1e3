/** `mcpm remove <name>`: unregister a server from the command-line host
    (`claude mcp remove`) and from a settings file of the file-merge host,
    the project's or, with `--global`, the user's. */
module RemoveCommand {
  import opened Common
  import opened Json
  import opened Station
  import opened GeminiCli
  import opened AddCommand

  /** Why a removal failed. */
  datatype RemoveError =
    | ClaudeRemoveFailed(output: string)  // `claude` exited non-zero
    | NoHomeDirectory                     // "could not get home directory"
    | ConfigNotFound(path: string)        // "config file not found: <path>"
    | ConfigUnreadable(reason: string)    // any other read error
    | ConfigInvalid(reason: string)       // the file is not a JSON object
    | ServerNotFound(name: string)        // "server <name> not found"
    | ConfigWriteFailed(path: string)

  /** The command-line host's scope: "user" for a global removal, else "local". */
  function Scope(global: bool): (scope: string)
    ensures scope == "user" || scope == "local"
    ensures scope == "user" <==> global
  {
    if global then "user" else "local"
  }

  function RemoveArgs(name: string, global: bool): (args: seq<string>)
    ensures |args| == 5 && args[4] == name
  {
    ["mcp", "remove", "--scope", Scope(global), name]
  }

  /** `removeFromClaudeCode`: one `claude` run; a failure carries its output. */
  function RemoveFromClaude(w: Workstation, name: string, global: bool): (res: (Option<RemoveError>, Workstation))
    ensures res.1 == w.(claudeCalls := w.claudeCalls + [["mcp", "remove", "--scope", Scope(global), name]])
    ensures res.0.Some? <==> w.claudeFailure.Some?
    ensures res.0.Some? ==> res.0.value == ClaudeRemoveFailed(w.claudeFailure.value)
  {
    var run := RunClaude(w, RemoveArgs(name, global));
    if run.0.Some? then (Some(ClaudeRemoveFailed(run.0.value)), run.1) else (None, run.1)
  }

  /** The settings file to edit: under the home directory for a global
      removal, under the working directory otherwise; None when the home
      directory is unknown. */
  function ConfigPath(w: Workstation, global: bool): (path: Option<string>)
    ensures !global ==> path == Some(SettingsPath(w.cwd))
    ensures global ==> (path.None? <==> w.home.None?)
    ensures global && w.home.Some? ==> path == Some(SettingsPath(w.home.value))
  {
    if !global then Some(SettingsPath(w.cwd))
    else if w.home.None? then None
    else Some(SettingsPath(w.home.value))
  }

  /** `mcpServers` holds an object with an entry `name`. */
  predicate HasServer(doc: Doc, name: string) {
    "mcpServers" in doc && doc["mcpServers"].Obj? && name in doc["mcpServers"].fields
  }

  /** The document with one server entry deleted. */
  function DeleteServer(doc: Doc, name: string): (out: Doc)
    requires HasServer(doc, name)
    ensures out.Keys == doc.Keys
    ensures forall k :: k in doc && k != "mcpServers" ==> out[k] == doc[k]
    ensures out["mcpServers"].Obj? && out["mcpServers"].fields == doc["mcpServers"].fields - {name}
  {
    doc["mcpServers" := Obj(doc["mcpServers"].fields - {name})]
  }

  /** Removing a server that was just added to a table that did not hold it
      gives back the original document. */
  lemma DeleteUndoesUpsert(doc: Doc, name: string, entry: Value)
    requires "mcpServers" in doc && doc["mcpServers"].Obj? && name !in doc["mcpServers"].fields
    ensures HasServer(UpsertServer(doc, name, entry), name)
    ensures DeleteServer(UpsertServer(doc, name, entry), name) == doc
  {
    var table := doc["mcpServers"].fields;
    assert ServersOf(doc) == table;
    assert table[name := entry] - {name} == table;
    assert doc["mcpServers" := Obj(table)] == doc;
  }

  /** `removeFromGeminiCLI`, as a value. */
  function RemoveFromGeminiSpec(w: Workstation, name: string, global: bool): (res: (Option<RemoveError>, Workstation))
    ensures res.0.Some? ==> res.1 == w
  {
    var path := ConfigPath(w, global);
    if path.None? then (Some(NoHomeDirectory), w)
    else match ReadFile(w, path.value)
      case Missing => (Some(ConfigNotFound(path.value)), w)
      case Unreadable(reason) => (Some(ConfigUnreadable(reason)), w)
      case Invalid(reason) => (Some(ConfigInvalid(reason)), w)
      case Parsed(doc) =>
        if !HasServer(doc, name) then (Some(ServerNotFound(name)), w)
        else
          var written := WriteFile(w, path.value, DeleteServer(doc, name));
          if written.0 then (None, written.1) else (Some(ConfigWriteFailed(path.value)), w)
  }

  /** `removeFromGeminiCLI`: the checks in order, then the in-place delete and
      the write-back. */
  method RemoveFromGemini(w: Workstation, name: string, global: bool) returns (err: Option<RemoveError>, w': Workstation)
    ensures (err, w') == RemoveFromGeminiSpec(w, name, global)
  {
    w' := w;
    var configPath: string;
    if global {
      if w.home.None? {
        return Some(NoHomeDirectory), w;
      }
      configPath := Join3(w.home.value, ".gemini", "settings.json");
    } else {
      configPath := Join3(w.cwd, ".gemini", "settings.json");
    }
    var data := ReadFile(w, configPath);
    if data.Missing? {
      return Some(ConfigNotFound(configPath)), w;
    } else if data.Unreadable? {
      return Some(ConfigUnreadable(data.reason)), w;
    } else if data.Invalid? {
      return Some(ConfigInvalid(data.reason)), w;
    }
    var cfg := data.doc;
    if !("mcpServers" in cfg && cfg["mcpServers"].Obj?) {
      return Some(ServerNotFound(name)), w;
    }
    var mcpServers := cfg["mcpServers"].fields;
    if name !in mcpServers {
      return Some(ServerNotFound(name)), w;
    }
    mcpServers := mcpServers - {name};
    cfg := cfg["mcpServers" := Obj(mcpServers)];
    var written := WriteFile(w, configPath, cfg);
    if !written.0 {
      return Some(ConfigWriteFailed(configPath)), w;
    }
    return None, written.1;
  }

  /** The error cases: each check fails with its own error and nothing is
      written. */
  lemma RemoveErrors(w: Workstation, name: string, global: bool)
    ensures var path := ConfigPath(w, global);
      var res := RemoveFromGeminiSpec(w, name, global);
      && (path.None? ==> res == (Some(NoHomeDirectory), w))
      && (path.Some? && ReadFile(w, path.value).Missing? ==> res == (Some(ConfigNotFound(path.value)), w))
      && (path.Some? && ReadFile(w, path.value).Invalid? ==> res.0.Some? && res.0.value.ConfigInvalid?)
      && (path.Some? && ReadFile(w, path.value).Parsed? && !HasServer(ReadFile(w, path.value).doc, name) ==>
            res == (Some(ServerNotFound(name)), w))
  {
  }

  /** On success exactly the entry `name` is gone: every other server and
      every other top-level key is kept as it was, and only that file changed. */
  lemma RemoveDeletesExactly(w: Workstation, name: string, global: bool)
    requires RemoveFromGeminiSpec(w, name, global).0.None?
    ensures var path := ConfigPath(w, global).value;
      var before := ReadFile(w, path).doc;
      var after := RemoveFromGeminiSpec(w, name, global).1;
      && ReadFile(w, path).Parsed? && HasServer(before, name)
      && after == w.(files := w.files[path := Parsed(DeleteServer(before, name))])
      && ReadFile(after, path).doc.Keys == before.Keys
      && ServersOf(ReadFile(after, path).doc) == ServersOf(before) - {name}
  {
  }

  /** What happened at each host: None when it was not a target. */
  datatype RemoveOutcome = RemoveOutcome(claude: Option<Option<RemoveError>>, gemini: Option<Option<RemoveError>>)

  /** `removeCmd.Run`: the hosts as `Targets` chooses them (both when
      neither flag is given), tried independently. */
  function RemoveSpec(w: Workstation, name: string, claudeFlag: bool, geminiFlag: bool, global: bool)
    : (res: (RemoveOutcome, Workstation))
    ensures res.0.claude.Some? == Targets(claudeFlag, geminiFlag).0
    ensures res.0.gemini.Some? == Targets(claudeFlag, geminiFlag).1
  {
    var targets := Targets(claudeFlag, geminiFlag);
    var c := if targets.0 then RemoveFromClaude(w, name, global) else (None, w);
    var g := if targets.1 then RemoveFromGeminiSpec(c.1, name, global) else (None, c.1);
    (RemoveOutcome(if targets.0 then Some(c.0) else None, if targets.1 then Some(g.0) else None), g.1)
  }

  /** The file-merge host's answer does not depend on the command-line host's. */
  lemma RemoveHostsIndependent(w: Workstation, name: string, claudeFlag: bool, geminiFlag: bool, global: bool)
    requires Targets(claudeFlag, geminiFlag).1
    ensures var res := RemoveSpec(w, name, claudeFlag, geminiFlag, global);
      var alone := RemoveFromGeminiSpec(w, name, global);
      res.0.gemini == Some(alone.0) && res.1.files == alone.1.files
  {
    if Targets(claudeFlag, geminiFlag).0 {
      var c := RemoveFromClaude(w, name, global);
      assert c.1.files == w.files && c.1.home == w.home && c.1.cwd == w.cwd && c.1.writeFails == w.writeFails;
      var path := ConfigPath(w, global);
      assert ConfigPath(c.1, global) == path;
      if path.Some? {
        assert ReadFile(c.1, path.value) == ReadFile(w, path.value);
      }
    }
  }
}
