/** Registration with the command-line host (`updateClaudeCode`) and what both
    hosts share: the server definition record and the derivation of the
    server's name from the launch spec. */
module ClaudeCode {
  import opened Common
  import opened BuildTypes
  import opened Station

  /** `McpServerDef`: one server entry of the file-merge host's settings. */
  datatype McpServerDef = McpServerDef(kind: string, command: string, args: seq<string>, env: map<string, string>)

  /** Why writing one host's configuration failed. */
  datatype InjectError =
    | ClaudeFailed(output: string)   // "failed to add MCP server: ...", with the combined output
    | GeminiDirFailed(dir: string)   // "could not create .gemini dir"
    | GeminiWriteFailed(path: string)

  const DefaultName: string := "mcp-server"

  // ---- server name, as written --------------------------------------------

  /** The component right after the first `servers` component that has a successor. */
  function AfterServers(parts: seq<string>): Option<string> {
    if |parts| < 2 then None
    else if parts[0] == "servers" then Some(parts[1])
    else AfterServers(parts[1..])
  }

  /** `parts[i]` is the first `servers` component, and it has a successor. */
  predicate FirstServersAt(parts: seq<string>, i: int) {
    0 <= i < |parts| - 1 && parts[i] == "servers" && forall j :: 0 <= j < i ==> parts[j] != "servers"
  }

  /** The search finds nothing exactly when no component but the last is
      `servers`, and otherwise yields the successor of the first one. */
  lemma {:induction false} AfterServersSpec(parts: seq<string>)
    ensures AfterServers(parts).None? <==> forall i :: 0 <= i < |parts| - 1 ==> parts[i] != "servers"
    ensures AfterServers(parts).Some? ==>
      exists i :: FirstServersAt(parts, i) && AfterServers(parts) == Some(parts[i + 1])
  {
    if |parts| >= 2 && parts[0] == "servers" {
      assert FirstServersAt(parts, 0);
    } else if |parts| >= 2 {
      AfterServersSpec(parts[1..]);
      assert forall i :: 1 <= i < |parts| ==> parts[i] == parts[1..][i - 1];
      if AfterServers(parts).Some? {
        var i :| FirstServersAt(parts[1..], i) && AfterServers(parts[1..]) == Some(parts[1..][i + 1]);
        assert FirstServersAt(parts, i + 1);
      }
    }
  }

  /** The first `servers` component with a successor decides, wherever it is. */
  lemma {:induction false} AfterServersAt(parts: seq<string>, i: nat)
    requires i + 1 < |parts| && parts[i] == "servers"
    requires forall j :: 0 <= j < i ==> parts[j] != "servers"
    ensures AfterServers(parts) == Some(parts[i + 1])
  {
    AfterServersSpec(parts);
    var k :| FirstServersAt(parts, k) && AfterServers(parts) == Some(parts[k + 1]);
    assert k == i;
  }

  /** A derived name of "" or "." gives way to the base name of the command. */
  function Fallback(derived: string, command: string): (name: string)
    ensures name != ""
    ensures derived != "" && derived != "." ==> name == derived
  {
    if derived == "" || derived == "." then Base(command) else derived
  }

  /** The name as the source derives it: the component after the first
      `servers` component of the first argument split on `/`; "mcp-server"
      without arguments or without such a component. */
  function NameAsWritten(r: BuildResult): (name: string)
    ensures name != "" && (name == "/" || '/' !in name)
  {
    if |r.args| == 0 then Fallback(DefaultName, r.command)
    else
      var parts := Split(r.args[0], '/');
      AfterServersSpec(parts);
      var found := AfterServers(parts);
      Fallback(if found.Some? then found.value else DefaultName, r.command)
  }

  /** The source's loop: walk the components and stop at the first hit. */
  method DeriveNameAsWritten(r: BuildResult) returns (name: string)
    ensures name == NameAsWritten(r)
  {
    name := DefaultName;
    if |r.args| > 0 {
      var parts := Split(r.args[0], '/');
      var i := 0;
      while i < |parts|
        invariant 0 <= i <= |parts|
        invariant name == DefaultName
        invariant forall j :: 0 <= j < i && j < |parts| - 1 ==> parts[j] != "servers"
      {
        if parts[i] == "servers" && i + 1 < |parts| {
          AfterServersAt(parts, i);
          name := parts[i + 1];
          break;
        }
        i := i + 1;
      }
      AfterServersSpec(parts);
    }
    if name == "" || name == "." {
      name := Base(r.command);
    }
  }

  // ---- server name, corrected ---------------------------------------------

  /** The directory servers are cloned into, with the separator that follows it. */
  function ServersRoot(cwd: string): string {
    Join(Join(cwd, ".mcp"), "servers") + "/"
  }

  /** The name as intended: for a first argument under `<cwd>/.mcp/servers/`,
      the directory the server was cloned into; for any other launch spec,
      the name the source derives. */
  function ServerName(cwd: string, r: BuildResult): (name: string)
    ensures name != "" && (name == "/" || '/' !in name)
    ensures !(|r.args| > 0 && StartsWith(r.args[0], ServersRoot(cwd))) ==> name == NameAsWritten(r)
  {
    var root := ServersRoot(cwd);
    if |r.args| > 0 && StartsWith(r.args[0], root) then Fallback(Split(r.args[0][|root|..], '/')[0], r.command)
    else NameAsWritten(r)
  }

  /** The components of the clone root are those of the working directory
      followed by `.mcp` and `servers`. */
  lemma RootParts(cwd: string)
    ensures Split(Join(Join(cwd, ".mcp"), "servers"), '/') ==
      (if cwd == "" then [] else Split(cwd, '/')) + [".mcp", "servers"]
  {
    SplitNoSep(".mcp", '/');
    SplitNoSep("servers", '/');
    if cwd != "" {
      SplitJoined(cwd, ".mcp");
      SplitJoined(Join(cwd, ".mcp"), "servers");
    } else {
      SplitJoined(".mcp", "servers");
    }
  }

  /** The correction changes nothing unless the working directory itself has
      a `servers` component: the source's search then meets the clone root's
      `servers` first and takes the clone directory's name. */
  lemma CorrectedAgreesAsWritten(cwd: string, r: BuildResult)
    requires forall i :: 0 <= i < |Split(cwd, '/')| ==> Split(cwd, '/')[i] != "servers"
    ensures ServerName(cwd, r) == NameAsWritten(r)
  {
    var root := ServersRoot(cwd);
    if |r.args| > 0 && StartsWith(r.args[0], root) {
      var dir := Join(Join(cwd, ".mcp"), "servers");
      var rest := r.args[0][|root|..];
      assert r.args[0] == dir + ['/'] + rest by {
        assert r.args[0] == r.args[0][..|root|] + rest;
      }
      SplitConcat(dir, rest, '/');
      RootParts(cwd);
      var head := if cwd == "" then [] else Split(cwd, '/');
      var parts := Split(r.args[0], '/');
      assert parts == head + [".mcp", "servers"] + Split(rest, '/');
      var k := |head| + 1;
      assert parts[k] == "servers" && parts[k + 1] == Split(rest, '/')[0];
      forall j | 0 <= j < k
        ensures parts[j] != "servers"
      {
        if j < |head| {
          assert parts[j] == Split(cwd, '/')[j];
        } else {
          assert parts[j] == ".mcp";
        }
      }
      AfterServersAt(parts, k);
    }
  }

  /** A launch spec whose first argument lies in a cloned server's directory
      is named after that directory, whatever the working directory is. */
  lemma ServerNameIsCloneDir(cwd: string, repo: string, rel: string, r: BuildResult)
    requires repo != "" && repo != "." && '/' !in repo
    requires |r.args| > 0 && r.args[0] == Join(Join3(Join(cwd, ".mcp"), "servers", repo), rel)
    ensures ServerName(cwd, r) == repo
  {
    var root := ServersRoot(cwd);
    var dir := Join3(Join(cwd, ".mcp"), "servers", repo);
    assert dir == root + repo;
    var rest := if rel == "" then repo else repo + "/" + rel;
    assert r.args[0] == root + rest;
    assert r.args[0][..|root|] == root;
    assert r.args[0][|root|..] == rest;
    SplitNoSep(repo, '/');
    if rel != "" {
      SplitConcat(repo, rel, '/');
    }
  }

  /** Splitting a join of two non-empty paths splits each side on its own. */
  lemma SplitJoined(a: string, b: string)
    requires a != "" && b != ""
    ensures Split(Join(a, b), '/') == Split(a, '/') + Split(b, '/')
  {
    SplitConcat(a, b, '/');
  }

  /** An absolute path of two components splits into "", then each component. */
  lemma SlashParts(a: string, p: string)
    requires '/' !in a && '/' !in p
    ensures Split("/" + a + "/" + p, '/') == ["", a, p]
  {
    var tail := a + "/" + p;
    assert "/" + a + "/" + p == "" + "/" + tail;
    SplitConcat("", tail, '/');
    SplitConcat(a, p, '/');
    SplitNoSep(a, '/');
    SplitNoSep(p, '/');
  }

  lemma WorkingDirParts(p: string)
    requires p != "" && '/' !in p
    ensures Split("/servers/" + p, '/') == ["", "servers", p]
  {
    assert "/servers/" + p == "/" + "servers" + "/" + p;
    SlashParts("servers", p);
  }

  /** The components of a file under a cloned server's directory begin with
      those of the working directory. */
  lemma CloneDirParts(cwd: string, repo: string, rel: string)
    requires cwd != "" && repo != ""
    ensures Split(Join(Join3(Join(cwd, ".mcp"), "servers", repo), rel), '/') ==
      Split(cwd, '/') + [".mcp", "servers"] + Split(repo, '/') + (if rel == "" then [] else Split(rel, '/'))
  {
    var base := Split(cwd, '/');
    var mcp := Join(cwd, ".mcp");
    SplitNoSep(".mcp", '/');
    SplitJoined(cwd, ".mcp");
    assert Split(mcp, '/') == base + [".mcp"];
    var servers := Join(mcp, "servers");
    SplitNoSep("servers", '/');
    SplitJoined(mcp, "servers");
    assert Split(servers, '/') == base + [".mcp", "servers"];
    var dir := Join(servers, repo);
    SplitJoined(servers, repo);
    assert Split(dir, '/') == base + [".mcp", "servers"] + Split(repo, '/');
    if rel != "" {
      SplitJoined(dir, rel);
    }
  }

  /** The discrepancy: under a working directory `/servers/<p>`, the source
      names every cloned server `<p>`, whatever the clone directory is called
      (`ServerNameIsCloneDir` gives the intended name). */
  lemma AsWrittenTakesWorkingDirectory(p: string, repo: string, rel: string, r: BuildResult)
    requires p != "" && p != "." && '/' !in p
    requires repo != "" && repo != "." && '/' !in repo
    requires |r.args| > 0 && r.args[0] == Join(Join3(Join("/servers/" + p, ".mcp"), "servers", repo), rel)
    ensures NameAsWritten(r) == p
  {
    var parts := Split(r.args[0], '/');
    assert AfterServers(parts) == Some(p) by {
      WorkingDirParts(p);
      CloneDirParts("/servers/" + p, repo, rel);
      assert parts[0] == "" && parts[1] == "servers" && parts[2] == p;
      AfterServersAt(parts, 1);
    }
  }

  // ---- the argument list --------------------------------------------------

  /** The order in which Go's map iteration visits `env`: every key once. */
  predicate IsOrder(order: seq<string>, env: map<string, string>) {
    && (forall i :: 0 <= i < |order| ==> order[i] in env)
    && (forall k :: k in env ==> k in order)
    && (forall i, j :: 0 <= i < j < |order| ==> order[i] != order[j])
  }

  lemma {:induction false} OrderLength(order: seq<string>, env: map<string, string>)
    requires IsOrder(order, env)
    ensures |order| == |env|
    decreases |order|
  {
    if order == [] {
      assert env.Keys == {};
    } else {
      var rest := env - {order[0]};
      assert IsOrder(order[1..], rest) by {
        forall k | k in rest ensures k in order[1..] {
          var i :| 0 <= i < |order| && order[i] == k;
          assert i != 0;
          assert order[1..][i - 1] == k;
        }
      }
      OrderLength(order[1..], rest);
      assert env.Keys == rest.Keys + {order[0]};
    }
  }

  /** `--env KEY=VALUE` for each key, in iteration order. */
  function EnvFlags(env: map<string, string>, order: seq<string>): (flags: seq<string>)
    requires forall i :: 0 <= i < |order| ==> order[i] in env
  {
    if order == [] then [] else ["--env", order[0] + "=" + env[order[0]]] + EnvFlags(env, order[1..])
  }

  /** Each key contributes exactly the pair `--env`, `KEY=VALUE`, at its place in the order. */
  lemma {:induction false} EnvFlagsShape(env: map<string, string>, order: seq<string>)
    requires forall i :: 0 <= i < |order| ==> order[i] in env
    ensures |EnvFlags(env, order)| == 2 * |order|
    ensures forall i :: 0 <= i < |order| ==>
      EnvFlags(env, order)[2 * i] == "--env" && EnvFlags(env, order)[2 * i + 1] == order[i] + "=" + env[order[i]]
  {
    if order != [] {
      EnvFlagsShape(env, order[1..]);
      var f := EnvFlags(env, order);
      var t := EnvFlags(env, order[1..]);
      assert f == ["--env", order[0] + "=" + env[order[0]]] + t;
      forall i | 1 <= i < |order|
        ensures f[2 * i] == "--env" && f[2 * i + 1] == order[i] + "=" + env[order[i]]
      {
        assert f[2 * i] == t[2 * (i - 1)] && f[2 * i + 1] == t[2 * (i - 1) + 1];
        assert order[1..][i - 1] == order[i];
      }
    }
  }

  /** `claude mcp add [--env KEY=VALUE]... <name> <command> [args...]`. */
  function AddArgs(name: string, r: BuildResult, env: map<string, string>, order: seq<string>): seq<string>
    requires forall i :: 0 <= i < |order| ==> order[i] in env
  {
    ["mcp", "add"] + EnvFlags(env, order) + [name, r.command] + r.args
  }

  /** The argument list's layout: length `4 + 2|env| + |args|`, every
      environment entry present as a flag pair, then the name, the command and
      the server's arguments. */
  lemma AddArgsLayout(name: string, r: BuildResult, env: map<string, string>, order: seq<string>)
    requires IsOrder(order, env)
    ensures var a := AddArgs(name, r, env, order);
      && |a| == 4 + 2 * |env| + |r.args|
      && a[..2] == ["mcp", "add"]
      && a[2 + 2 * |env|..] == [name, r.command] + r.args
      && forall k :: k in env ==>
        exists i :: 0 <= i < |env| && a[2 + 2 * i] == "--env" && a[3 + 2 * i] == k + "=" + env[k]
  {
    OrderLength(order, env);
    EnvFlagsShape(env, order);
    var a := AddArgs(name, r, env, order);
    var f := EnvFlags(env, order);
    assert a == ["mcp", "add"] + f + ([name, r.command] + r.args);
    forall k | k in env
      ensures exists i :: 0 <= i < |env| && a[2 + 2 * i] == "--env" && a[3 + 2 * i] == k + "=" + env[k]
    {
      var i :| 0 <= i < |order| && order[i] == k;
      assert a[2 + 2 * i] == f[2 * i] && a[3 + 2 * i] == f[2 * i + 1];
    }
  }

  /** The source's appends: the fixed head, one flag pair per visited key, then the tail. */
  method BuildAddArgs(name: string, r: BuildResult, env: map<string, string>, order: seq<string>) returns (cmdArgs: seq<string>)
    requires forall i :: 0 <= i < |order| ==> order[i] in env
    ensures cmdArgs == AddArgs(name, r, env, order)
  {
    cmdArgs := ["mcp", "add"];
    var i := 0;
    while i < |order|
      invariant 0 <= i <= |order|
      invariant cmdArgs + EnvFlags(env, order[i..]) == ["mcp", "add"] + EnvFlags(env, order)
    {
      assert order[i..][1..] == order[i + 1..];
      cmdArgs := cmdArgs + ["--env", order[i] + "=" + env[order[i]]];
      i := i + 1;
    }
    cmdArgs := cmdArgs + [name, r.command];
    cmdArgs := cmdArgs + r.args;
  }

  // ---- registration -------------------------------------------------------

  /** One `claude mcp add` run registering `r` as `name`; a failing run yields its output. */
  function ClaudeUpdate(w: Workstation, name: string, r: BuildResult, env: map<string, string>, order: seq<string>)
    : (res: (Option<InjectError>, Workstation))
    requires forall i :: 0 <= i < |order| ==> order[i] in env
    ensures res.1 == w.(claudeCalls := w.claudeCalls + [AddArgs(name, r, env, order)])
    ensures res.0.Some? <==> w.claudeFailure.Some?
    ensures res.0.Some? ==> res.0.value == ClaudeFailed(w.claudeFailure.value)
  {
    var run := RunClaude(w, AddArgs(name, r, env, order));
    if run.0.Some? then (Some(ClaudeFailed(run.0.value)), run.1) else (None, run.1)
  }

  /** The part of `updateClaudeCode` after the name is known: build the
      argument list and run `claude` once. */
  method AddServer(w: Workstation, name: string, r: BuildResult, env: map<string, string>, order: seq<string>)
    returns (err: Option<InjectError>, w': Workstation)
    requires forall i :: 0 <= i < |order| ==> order[i] in env
    ensures (err, w') == ClaudeUpdate(w, name, r, env, order)
  {
    var cmdArgs := BuildAddArgs(name, r, env, order);
    var run := RunClaude(w, cmdArgs);
    w' := run.1;
    if run.0.Some? {
      return Some(ClaudeFailed(run.0.value)), w';
    }
    return None, w';
  }

  /** `updateClaudeCode` as written: the name comes from the source's search loop. */
  method UpdateClaudeCode(w: Workstation, r: BuildResult, env: map<string, string>, order: seq<string>)
    returns (err: Option<InjectError>, w': Workstation)
    requires forall i :: 0 <= i < |order| ==> order[i] in env
    ensures (err, w') == ClaudeUpdate(w, NameAsWritten(r), r, env, order)
  {
    var name := DeriveNameAsWritten(r);
    err, w' := AddServer(w, name, r, env, order);
  }
}
