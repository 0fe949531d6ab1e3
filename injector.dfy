/** `Register`: write the launch spec into each requested host's
    configuration, in list order, stopping at the first failure. */
module Injector {
  import opened Common
  import opened Station
  import opened BuildTypes
  import opened ClaudeCode
  import GeminiCli

  const ClaudeCodeTool: string := "claude-code"
  const GeminiCliTool: string := "gemini-cli"

  /** The error `Register` returns: the host's failure with the host named. */
  datatype RegisterError =
    | ClaudeConfigurationFailed(cause: InjectError)   // "claude configuration failed: ..."
    | GeminiConfigurationFailed(cause: InjectError)   // "gemini configuration failed: ..."

  /** What registering with the remaining tools does, one tool at a time;
      `order` is the order Go's map iteration visits `env` in. Both hosts
      register the server under the corrected `ServerName`. */
  function RegisterSpec(r: BuildResult, tools: seq<string>, env: map<string, string>, order: seq<string>, w: Workstation)
    : (res: (Option<RegisterError>, Workstation))
    requires forall i :: 0 <= i < |order| ==> order[i] in env
    ensures res.0.Some? ==>
      || (res.0.value.ClaudeConfigurationFailed? && res.0.value.cause.ClaudeFailed?)
      || (res.0.value.GeminiConfigurationFailed? && !res.0.value.cause.ClaudeFailed?)
    ensures res.1.cwd == w.cwd
    decreases |tools|
  {
    if tools == [] then (None, w)
    else if tools[0] == ClaudeCodeTool then
      var c := ClaudeUpdate(w, ServerName(w.cwd, r), r, env, order);
      if c.0.Some? then (Some(ClaudeConfigurationFailed(c.0.value)), c.1)
      else RegisterSpec(r, tools[1..], env, order, c.1)
    else if tools[0] == GeminiCliTool then
      var g := GeminiCli.GeminiUpdate(w, r, env);
      if g.0.Some? then (Some(GeminiConfigurationFailed(g.0.value)), g.1)
      else RegisterSpec(r, tools[1..], env, order, g.1)
    else RegisterSpec(r, tools[1..], env, order, w)
  }

  /** The source's loop. `global` is accepted, as the callers pass it, and has
      no effect. */
  method Register(r: BuildResult, tools: seq<string>, env: map<string, string>, global: bool, order: seq<string>, w: Workstation)
    returns (err: Option<RegisterError>, w': Workstation)
    requires forall i :: 0 <= i < |order| ==> order[i] in env
    ensures (err, w') == RegisterSpec(r, tools, env, order, w)
  {
    w' := w;
    var i := 0;
    while i < |tools|
      invariant 0 <= i <= |tools|
      invariant RegisterSpec(r, tools[i..], env, order, w') == RegisterSpec(r, tools, env, order, w)
    {
      assert tools[i..][1..] == tools[i + 1..];
      if tools[i] == ClaudeCodeTool {
        var e;
        e, w' := AddServer(w', ServerName(w'.cwd, r), r, env, order);
        if e.Some? {
          return Some(ClaudeConfigurationFailed(e.value)), w';
        }
      } else if tools[i] == GeminiCliTool {
        var g := GeminiCli.GeminiUpdate(w', r, env);
        if g.0.Some? {
          return Some(GeminiConfigurationFailed(g.0.value)), g.1;
        }
        w' := g.1;
      }
      i := i + 1;
    }
    return None, w';
  }

  // ---- properties ---------------------------------------------------------

  /** Sequencing: registering with `a + b` registers with `a`, and with `b`
      only when `a` succeeded; after a failure no later tool is attempted. */
  lemma {:induction false} RegisterAppend(r: BuildResult, a: seq<string>, b: seq<string>, env: map<string, string>, order: seq<string>, w: Workstation)
    requires forall i :: 0 <= i < |order| ==> order[i] in env
    ensures var first := RegisterSpec(r, a, env, order, w);
      RegisterSpec(r, a + b, env, order, w) ==
        if first.0.Some? then first else RegisterSpec(r, b, env, order, first.1)
    decreases |a|
  {
    if a == [] {
      assert a + b == b;
    } else {
      assert (a + b)[0] == a[0];
      assert (a + b)[1..] == a[1..] + b;
      if a[0] == ClaudeCodeTool {
        RegisterAppend(r, a[1..], b, env, order, ClaudeUpdate(w, ServerName(w.cwd, r), r, env, order).1);
      } else if a[0] == GeminiCliTool {
        RegisterAppend(r, a[1..], b, env, order, GeminiCli.GeminiUpdate(w, r, env).1);
      } else {
        RegisterAppend(r, a[1..], b, env, order, w);
      }
    }
  }

  /** The known tools of a list, in order. */
  function KnownTools(tools: seq<string>): (ks: seq<string>)
    ensures forall t :: t in ks <==> t in tools && (t == ClaudeCodeTool || t == GeminiCliTool)
    ensures |ks| <= |tools|
    decreases |tools|
  {
    if tools == [] then []
    else if tools[0] == ClaudeCodeTool || tools[0] == GeminiCliTool then [tools[0]] + KnownTools(tools[1..])
    else KnownTools(tools[1..])
  }

  /** Filtering keeps the order: the known tools of `a + b` are those of `a`
      followed by those of `b`. */
  lemma {:induction false} KnownToolsAppend(a: seq<string>, b: seq<string>)
    ensures KnownTools(a + b) == KnownTools(a) + KnownTools(b)
    decreases |a|
  {
    if a == [] {
      assert a + b == b;
    } else {
      assert (a + b)[0] == a[0];
      assert (a + b)[1..] == a[1..] + b;
      KnownToolsAppend(a[1..], b);
    }
  }

  /** Unknown tool names are skipped silently: they change nothing. */
  lemma {:induction false} UnknownToolsSkipped(r: BuildResult, tools: seq<string>, env: map<string, string>, order: seq<string>, w: Workstation)
    requires forall i :: 0 <= i < |order| ==> order[i] in env
    ensures RegisterSpec(r, tools, env, order, w) == RegisterSpec(r, KnownTools(tools), env, order, w)
    decreases |tools|
  {
    if tools != [] {
      if tools[0] == ClaudeCodeTool {
        UnknownToolsSkipped(r, tools[1..], env, order, ClaudeUpdate(w, ServerName(w.cwd, r), r, env, order).1);
        assert ([tools[0]] + KnownTools(tools[1..]))[1..] == KnownTools(tools[1..]);
      } else if tools[0] == GeminiCliTool {
        UnknownToolsSkipped(r, tools[1..], env, order, GeminiCli.GeminiUpdate(w, r, env).1);
        assert ([tools[0]] + KnownTools(tools[1..]))[1..] == KnownTools(tools[1..]);
      } else {
        UnknownToolsSkipped(r, tools[1..], env, order, w);
      }
    }
  }

  /** With no known tool, nothing is touched and nil is returned. */
  lemma NothingToRegister(r: BuildResult, tools: seq<string>, env: map<string, string>, order: seq<string>, w: Workstation)
    requires forall i :: 0 <= i < |order| ==> order[i] in env
    requires forall i :: 0 <= i < |tools| ==> tools[i] != ClaudeCodeTool && tools[i] != GeminiCliTool
    ensures RegisterSpec(r, tools, env, order, w) == (None, w)
  {
    UnknownToolsSkipped(r, tools, env, order, w);
    assert KnownTools(tools) == [] by {
      assert forall i :: 0 <= i < |KnownTools(tools)| ==> KnownTools(tools)[i] in KnownTools(tools);
    }
  }

  /** A failing command-line host stops the loop: a later file-merge host is
      never written. */
  lemma ClaudeFailureStops(r: BuildResult, env: map<string, string>, order: seq<string>, w: Workstation)
    requires forall i :: 0 <= i < |order| ==> order[i] in env
    requires w.claudeFailure.Some?
    ensures var res := RegisterSpec(r, [ClaudeCodeTool, GeminiCliTool], env, order, w);
      && res.0 == Some(ClaudeConfigurationFailed(ClaudeFailed(w.claudeFailure.value)))
      && res.1.files == w.files
  {
  }
}
