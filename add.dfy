/** `mcpm add <name> <command-or-url> [args...]`: register a server that is
    already installed or remote, without cloning or building, with the
    command-line host (`claude mcp add`) and the file-merge host (the
    project's settings file). */
module AddCommand {
  import opened Common
  import opened Json
  import opened Station
  import opened ClaudeCode
  import opened GeminiCli

  // ---- flags ---------------------------------------------------------------

  /** The hosts a command acts on: as flagged, or both when neither flag is
      given. `remove` chooses its hosts the same way. */
  function Targets(claude: bool, gemini: bool): (t: (bool, bool))
    ensures t.0 || t.1
    ensures claude || gemini ==> t == (claude, gemini)
  {
    if !claude && !gemini then (true, true) else (claude, gemini)
  }

  /** `KEY=VALUE` defines `KEY`: the text before the first `=`. */
  predicate Defines(flag: string, key: string) {
    var kv := CutFirst(flag, '=');
    kv.Some? && kv.value.0 == key
  }

  /** The `--env` flags as a map: each flag split at its first `=`, a flag
      without `=` dropped, a later flag overwriting an earlier one. */
  function ParsedEnv(flags: seq<string>): map<string, string>
    decreases |flags|
  {
    if flags == [] then map[]
    else
      var n := |flags| - 1;
      var kv := CutFirst(flags[n], '=');
      if kv.Some? then ParsedEnv(flags[..n])[kv.value.0 := kv.value.1] else ParsedEnv(flags[..n])
  }

  /** The parsed keys are exactly the keys some flag defines. */
  lemma {:induction false} ParsedEnvKeys(flags: seq<string>, key: string)
    ensures key in ParsedEnv(flags) <==> exists i :: 0 <= i < |flags| && Defines(flags[i], key)
    decreases |flags|
  {
    if flags != [] {
      var n := |flags| - 1;
      ParsedEnvKeys(flags[..n], key);
      if exists i :: 0 <= i < n && Defines(flags[..n][i], key) {
        var i :| 0 <= i < n && Defines(flags[..n][i], key);
        assert flags[i] == flags[..n][i];
      }
      if exists i :: 0 <= i < |flags| && Defines(flags[i], key) {
        var i :| 0 <= i < |flags| && Defines(flags[i], key);
        if i < n {
          assert flags[..n][i] == flags[i];
        }
      }
    }
  }

  /** The value of a key is the one its last defining flag gives, everything
      after the first `=` included. */
  lemma {:induction false} ParsedEnvLastWins(flags: seq<string>, i: int)
    requires 0 <= i < |flags| && '=' in flags[i]
    requires var key := CutFirst(flags[i], '=').value.0;
      forall j :: i < j < |flags| ==> !Defines(flags[j], key)
    ensures var kv := CutFirst(flags[i], '=').value;
      kv.0 in ParsedEnv(flags) && ParsedEnv(flags)[kv.0] == kv.1
    decreases |flags|
  {
    var n := |flags| - 1;
    if i < n {
      var key := CutFirst(flags[i], '=').value.0;
      assert !Defines(flags[n], key);
      assert flags[..n][i] == flags[i];
      assert forall j :: i < j < n ==> flags[..n][j] == flags[j];
      ParsedEnvLastWins(flags[..n], i);
    }
  }

  /** The source's loop over the `--env` flags. */
  method ParseEnv(flags: seq<string>) returns (env: map<string, string>)
    ensures env == ParsedEnv(flags)
  {
    env := map[];
    for i := 0 to |flags|
      invariant env == ParsedEnv(flags[..i])
    {
      assert flags[..i + 1][..i] == flags[..i];
      var parts := CutFirst(flags[i], '=');
      if parts.Some? {
        env := env[parts.value.0 := parts.value.1];
      }
    }
    assert flags[..|flags|] == flags;
  }

  /** The transport: as given, or detected from the target when not given. */
  function DetectTransport(explicit: string, target: string): (t: string)
    ensures explicit != "" ==> t == explicit
    ensures explicit == "" ==> (t == "http" || t == "stdio")
    ensures explicit == "" ==> (t == "http" <==> StartsWith(target, "http://") || StartsWith(target, "https://"))
  {
    if explicit != "" then explicit
    else if StartsWith(target, "http://") || StartsWith(target, "https://") then "http"
    else "stdio"
  }

  // ---- the command-line host -----------------------------------------------

  /** `claude mcp add --transport T [--env KEY=VALUE]... <name> <target> [args...]`. */
  function ClaudeAddArgs(transport: string, name: string, target: string, args: seq<string>,
                         env: map<string, string>, order: seq<string>): seq<string>
    requires forall i :: 0 <= i < |order| ==> order[i] in env
  {
    ["mcp", "add", "--transport", transport] + EnvFlags(env, order) + [name, target] + args
  }

  /** Layout: the four-word head, one flag pair per variable, then the name,
      the target and the server's arguments. */
  lemma ClaudeAddArgsLayout(transport: string, name: string, target: string, args: seq<string>,
                            env: map<string, string>, order: seq<string>)
    requires IsOrder(order, env)
    ensures var a := ClaudeAddArgs(transport, name, target, args, env, order);
      && |order| == |env|
      && |a| == 6 + 2 * |env| + |args|
      && a[..4] == ["mcp", "add", "--transport", transport]
      && a[4 + 2 * |env|..] == [name, target] + args
      && forall i :: 0 <= i < |order| ==> a[4 + 2 * i] == "--env" && a[5 + 2 * i] == order[i] + "=" + env[order[i]]
  {
    OrderLength(order, env);
    EnvFlagsShape(env, order);
    var a := ClaudeAddArgs(transport, name, target, args, env, order);
    var f := EnvFlags(env, order);
    assert a == ["mcp", "add", "--transport", transport] + f + ([name, target] + args);
    forall i | 0 <= i < |order|
      ensures a[4 + 2 * i] == "--env" && a[5 + 2 * i] == order[i] + "=" + env[order[i]]
    {
      assert a[4 + 2 * i] == f[2 * i] && a[5 + 2 * i] == f[2 * i + 1];
    }
  }

  /** The source's appends. */
  method BuildClaudeAddArgs(transport: string, name: string, target: string, args: seq<string>,
                            env: map<string, string>, order: seq<string>) returns (cmdArgs: seq<string>)
    requires forall i :: 0 <= i < |order| ==> order[i] in env
    ensures cmdArgs == ClaudeAddArgs(transport, name, target, args, env, order)
  {
    cmdArgs := ["mcp", "add", "--transport", transport];
    var i := 0;
    while i < |order|
      invariant 0 <= i <= |order|
      invariant cmdArgs + EnvFlags(env, order[i..]) == ["mcp", "add", "--transport", transport] + EnvFlags(env, order)
    {
      assert order[i..][1..] == order[i + 1..];
      cmdArgs := cmdArgs + ["--env", order[i] + "=" + env[order[i]]];
      i := i + 1;
    }
    cmdArgs := cmdArgs + [name, target];
    cmdArgs := cmdArgs + args;
  }

  /** `addToClaudeCode`: one `claude` run; a failure carries its output. */
  function AddToClaude(w: Workstation, transport: string, name: string, target: string, args: seq<string>,
                       env: map<string, string>, order: seq<string>): (res: (Option<InjectError>, Workstation))
    requires forall i :: 0 <= i < |order| ==> order[i] in env
    ensures res.1 == w.(claudeCalls := w.claudeCalls + [ClaudeAddArgs(transport, name, target, args, env, order)])
    ensures res.0.Some? <==> w.claudeFailure.Some?
    ensures res.0.Some? ==> res.0.value == ClaudeFailed(w.claudeFailure.value)
  {
    var run := RunClaude(w, ClaudeAddArgs(transport, name, target, args, env, order));
    if run.0.Some? then (Some(ClaudeFailed(run.0.value)), run.1) else (None, run.1)
  }

  // ---- the file-merge host -------------------------------------------------

  predicate Remote(transport: string) {
    transport == "http" || transport == "sse"
  }

  /** The entry written for the server: `{type, url}` for a remote transport,
      `{type: "stdio", command, args}` otherwise, with `env` only when there
      are variables. */
  function GeminiEntry(transport: string, target: string, args: seq<string>, env: map<string, string>): (v: Value)
    ensures v.Obj? && "type" in v.fields
    ensures "url" in v.fields <==> Remote(transport)
    ensures "command" in v.fields <==> !Remote(transport)
    ensures "args" in v.fields <==> !Remote(transport)
    ensures "env" in v.fields <==> |env| > 0
    ensures Remote(transport) ==> v.fields["type"] == Str(transport) && v.fields["url"] == Str(target)
    ensures !Remote(transport) ==>
      v.fields["type"] == Str("stdio") && v.fields["command"] == Str(target) && v.fields["args"] == StrArray(args)
    ensures |env| > 0 ==> v.fields["env"] == StrObject(env)
  {
    var base: map<string, Value> :=
      if Remote(transport) then map["type" := Str(transport), "url" := Str(target)]
      else map["type" := Str("stdio"), "command" := Str(target), "args" := StrArray(args)];
    Obj(if |env| > 0 then base["env" := StrObject(env)] else base)
  }

  /** The entry has no field besides those. */
  lemma GeminiEntryKeys(transport: string, target: string, args: seq<string>, env: map<string, string>)
    ensures var v := GeminiEntry(transport, target, args, env);
      v.fields.Keys <= {"type", "url", "command", "args", "env"}
  {
  }

  /** `addToGeminiCLI`. */
  function AddToGemini(w: Workstation, transport: string, name: string, target: string, args: seq<string>,
                       env: map<string, string>): (res: (Option<InjectError>, Workstation))
  {
    UpsertSettings(w, name, GeminiEntry(transport, target, args, env))
  }

  /** A successful add leaves every other setting and server untouched and
      the new entry in place; adding twice is adding once. */
  lemma AddToGeminiEffect(w: Workstation, transport: string, name: string, target: string, args: seq<string>,
                          env: map<string, string>)
    requires Join(w.cwd, ".gemini") !in w.mkdirFails && SettingsPath(w.cwd) !in w.writeFails
    ensures var path := SettingsPath(w.cwd);
      var before := LoadDoc(ReadFile(w, path));
      var once := AddToGemini(w, transport, name, target, args, env);
      && once.0 == None
      && ReadFile(once.1, path) == Parsed(UpsertServer(before, name, GeminiEntry(transport, target, args, env)))
      && AddToGemini(once.1, transport, name, target, args, env).1 == once.1
  {
    var path := SettingsPath(w.cwd);
    var entry := GeminiEntry(transport, target, args, env);
    var before := LoadDoc(ReadFile(w, path));
    var once := AddToGemini(w, transport, name, target, args, env);
    UpsertIdempotent(before, name, entry);
    assert once.1.files[path := Parsed(UpsertServer(UpsertServer(before, name, entry), name, entry))] == once.1.files;
  }

  // ---- the command ---------------------------------------------------------

  /** What happened at each host: None when it was not a target, else its
      error or success. */
  datatype AddOutcome = AddOutcome(claude: Option<Option<InjectError>>, gemini: Option<Option<InjectError>>)

  /** The command: both hosts are tried independently; a failure at one is
      reported and does not stop the other. */
  function AddSpec(w: Workstation, name: string, target: string, args: seq<string>, envFlags: seq<string>,
                   transportFlag: string, claudeFlag: bool, geminiFlag: bool, order: seq<string>)
    : (res: (AddOutcome, Workstation))
    requires forall i :: 0 <= i < |order| ==> order[i] in ParsedEnv(envFlags)
    ensures res.0.claude.Some? == Targets(claudeFlag, geminiFlag).0
    ensures res.0.gemini.Some? == Targets(claudeFlag, geminiFlag).1
  {
    var targets := Targets(claudeFlag, geminiFlag);
    var env := ParsedEnv(envFlags);
    var transport := DetectTransport(transportFlag, target);
    var c := if targets.0 then AddToClaude(w, transport, name, target, args, env, order) else (None, w);
    var g := if targets.1 then AddToGemini(c.1, transport, name, target, args, env) else (None, c.1);
    (AddOutcome(if targets.0 then Some(c.0) else None, if targets.1 then Some(g.0) else None), g.1)
  }

  /** `addCmd.Run`. */
  method Add(w: Workstation, name: string, target: string, args: seq<string>, envFlags: seq<string>,
             transportFlag: string, claudeFlag: bool, geminiFlag: bool, order: seq<string>)
    returns (outcome: AddOutcome, w': Workstation)
    requires forall i :: 0 <= i < |order| ==> order[i] in ParsedEnv(envFlags)
    ensures (outcome, w') == AddSpec(w, name, target, args, envFlags, transportFlag, claudeFlag, geminiFlag, order)
  {
    var addClaude, addGemini := claudeFlag, geminiFlag;
    if !addClaude && !addGemini {
      addClaude := true;
      addGemini := true;
    }
    var env := ParseEnv(envFlags);
    var transport := transportFlag;
    if transport == "" {
      if StartsWith(target, "http://") || StartsWith(target, "https://") {
        transport := "http";
      } else {
        transport := "stdio";
      }
    }
    w' := w;
    outcome := AddOutcome(None, None);
    if addClaude {
      var cmdArgs := BuildClaudeAddArgs(transport, name, target, args, env, order);
      var run := RunClaude(w', cmdArgs);
      w' := run.1;
      outcome := outcome.(claude := Some(if run.0.Some? then Some(ClaudeFailed(run.0.value)) else None));
    }
    if addGemini {
      var g := AddToGemini(w', transport, name, target, args, env);
      w' := g.1;
      outcome := outcome.(gemini := Some(g.0));
    }
  }

  /** The hosts are independent: what the file-merge host ends up with, and
      how it answers, does not depend on how `claude` answers. */
  lemma HostsIndependent(w: Workstation, name: string, target: string, args: seq<string>, envFlags: seq<string>,
                         transportFlag: string, claudeFlag: bool, geminiFlag: bool, order: seq<string>)
    requires forall i :: 0 <= i < |order| ==> order[i] in ParsedEnv(envFlags)
    requires Targets(claudeFlag, geminiFlag).1
    ensures var res := AddSpec(w, name, target, args, envFlags, transportFlag, claudeFlag, geminiFlag, order);
      var alone := AddToGemini(w, DetectTransport(transportFlag, target), name, target, args, ParsedEnv(envFlags));
      res.0.gemini == Some(alone.0) && res.1.files == alone.1.files
  {
    var env := ParsedEnv(envFlags);
    var transport := DetectTransport(transportFlag, target);
    if Targets(claudeFlag, geminiFlag).0 {
      var c := AddToClaude(w, transport, name, target, args, env, order);
      assert c.1.cwd == w.cwd && c.1.files == w.files && c.1.mkdirFails == w.mkdirFails && c.1.writeFails == w.writeFails;
      var path := SettingsPath(w.cwd);
      assert ReadFile(c.1, path) == ReadFile(w, path);
    }
  }
}
