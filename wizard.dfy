/** What the two terminal wizards (install and update) share: the messages
    they react to, the commands they hand back to the runtime, the text inputs
    for environment values, and the key handling of the input list and the
    client list. The key handling is stated here once as functions; each
    wizard's class applies it to its own fields. */
module Wizard {
  import opened Common
  import opened Station
  import opened BuildTypes
  import opened Injector

  /** A message the runtime delivers: a key press (by its name, e.g. "enter",
      "tab", "ctrl+c", "a"), the clone's directory, the build's result, the
      clone's or build's failure, or a spinner tick. */
  datatype Msg =
    | Key(key: string)
    | RepoFetched(path: string)         // msgRepoFetched
    | BuildFinished(result: BuildResult) // msgBuilt
    | Failure(reason: string)           // msgError
    | SpinnerTick

  /** The command an update hands back: nothing, quit, start the build of a
      directory, or keep the spinner going. */
  datatype Cmd = NoCmd | Quit | BuildRepo(path: string) | SpinnerCmd

  /** The error a wizard shows: the clone or build failed, or `Register` did. */
  datatype WizardError = Aborted(reason: string) | RegistrationFailed(cause: RegisterError)

  /** A text input: the variable it asks for, what has been typed, and whether
      it has the keyboard focus. */
  datatype Input = Input(name: string, value: string, focused: bool)

  // ---- text inputs ---------------------------------------------------------

  /** A key typed into an input. An unfocused input ignores keys; "backspace"
      removes the last character; a single-character key is appended. */
  function TypeKey(input: Input, key: string): (out: Input)
    ensures out.name == input.name && out.focused == input.focused
    ensures !input.focused ==> out == input
    ensures input.focused && |key| == 1 && key != "backspace" ==> out.value == input.value + key
  {
    if !input.focused then input
    else if key == "backspace" then
      (if input.value == "" then input else input.(value := input.value[..|input.value| - 1]))
    else if |key| == 1 then input.(value := input.value + key)
    else input
  }

  /** Typing a character and erasing it leaves the input as it was. */
  lemma TypeThenErase(input: Input, key: string)
    requires input.focused && |key| == 1
    ensures TypeKey(TypeKey(input, key), "backspace") == input
  {
    var typed := TypeKey(input, key);
    assert typed.value == input.value + key;
    assert typed.value[..|typed.value| - 1] == input.value;
  }

  /** Exactly the input at `focus` has the focus. */
  predicate OneFocused(inputs: seq<Input>, focus: int) {
    forall i :: 0 <= i < |inputs| ==> (inputs[i].focused <==> i == focus)
  }

  /** One input per variable, in order, empty, with only the first focused. */
  function FreshInputs(needs: seq<string>): (inputs: seq<Input>)
    ensures |inputs| == |needs|
    ensures forall i :: 0 <= i < |needs| ==> inputs[i].name == needs[i] && inputs[i].value == ""
    ensures needs != [] ==> OneFocused(inputs, 0)
  {
    seq(|needs|, i requires 0 <= i < |needs| => Input(needs[i], "", i == 0))
  }

  /** The indexed loop that creates the inputs when the build asks for values. */
  method MakeInputs(needs: seq<string>) returns (inputs: seq<Input>)
    ensures inputs == FreshInputs(needs)
  {
    inputs := [];
    for i := 0 to |needs|
      invariant inputs == FreshInputs(needs[..i])
    {
      inputs := inputs + [Input(needs[i], "", i == 0)];
    }
    assert needs[..|needs|] == needs;
  }

  /** The outcome of a key in the input list: the inputs, the focus, and
      whether the last input was confirmed. */
  datatype EnvOutcome = EnvOutcome(inputs: seq<Input>, focus: int, confirmed: bool)

  function MoveFocus(inputs: seq<Input>, from: int, to: int): (moved: seq<Input>)
    requires 0 <= from < |inputs| && 0 <= to < |inputs|
    ensures |moved| == |inputs|
    ensures forall i :: 0 <= i < |inputs| ==> moved[i].name == inputs[i].name && moved[i].value == inputs[i].value
    ensures OneFocused(inputs, from) ==> OneFocused(moved, to)
  {
    inputs[from := inputs[from].(focused := false)][to := inputs[to].(focused := true)]
  }

  /** A key in the input list: "enter" confirms the last input or moves the
      focus on by one; "tab" moves the focus on, wrapping to the first; any
      other key is typed into the focused input. */
  function EnvKey(inputs: seq<Input>, focus: int, key: string): (o: EnvOutcome)
    requires 0 <= focus < |inputs|
    ensures |o.inputs| == |inputs| && 0 <= o.focus < |inputs|
    ensures o.confirmed <==> key == "enter" && focus == |inputs| - 1
    ensures o.confirmed ==> o.inputs == inputs && o.focus == focus
    ensures key == "enter" && !o.confirmed ==> o.focus == focus + 1
    ensures key == "tab" ==> o.focus == (focus + 1) % |inputs|
    ensures key == "enter" || key == "tab" ==>
      forall i :: 0 <= i < |inputs| ==> o.inputs[i].name == inputs[i].name && o.inputs[i].value == inputs[i].value
    ensures key != "enter" && key != "tab" ==>
      o.focus == focus && o.inputs == inputs[focus := TypeKey(inputs[focus], key)]
    ensures OneFocused(inputs, focus) ==> OneFocused(o.inputs, o.focus)
  {
    if key == "enter" then
      if focus == |inputs| - 1 then EnvOutcome(inputs, focus, true)
      else EnvOutcome(MoveFocus(inputs, focus, focus + 1), focus + 1, false)
    else if key == "tab" then
      var next := (focus + 1) % |inputs|;
      EnvOutcome(MoveFocus(inputs, focus, next), next, false)
    else
      EnvOutcome(inputs[focus := TypeKey(inputs[focus], key)], focus, false)
  }

  /** After n "tab" keys the focus is n places on, modulo the number of inputs. */
  lemma {:induction false} TabCycle(inputs: seq<Input>, focus: int, n: nat)
    requires 0 <= focus < |inputs|
    ensures TabsFrom(inputs, focus, n).focus == (focus + n) % |inputs|
    decreases n
  {
    if n > 0 {
      TabCycle(inputs, focus, n - 1);
      var before := TabsFrom(inputs, focus, n - 1);
      assert (((focus + n - 1) % |inputs|) + 1) % |inputs| == (focus + n) % |inputs| by {
        ModSucc(focus + n - 1, |inputs|);
      }
    }
  }

  lemma MulAtLeast(k: int, m: int)
    requires k >= 1 && m > 0
    ensures k * m >= m
  {
    if k > 1 {
      MulAtLeast(k - 1, m);
      assert k * m == (k - 1) * m + m;
    }
  }

  lemma ModUnique(x: int, m: int, q: int, r: int)
    requires m > 0 && 0 <= r < m && x == q * m + r
    ensures x % m == r
  {
    var q', r' := x / m, x % m;
    assert x == q' * m + r';
    assert (q - q') * m == r' - r;
    if q > q' {
      MulAtLeast(q - q', m);
    } else if q < q' {
      MulAtLeast(q' - q, m);
    }
  }

  lemma ModSucc(a: nat, m: nat)
    requires m > 0
    ensures ((a % m) + 1) % m == (a + 1) % m
  {
    var q, r := a / m, a % m;
    assert a == q * m + r;
    if r + 1 < m {
      ModUnique(a + 1, m, q, r + 1);
      ModUnique(r + 1, m, 0, r + 1);
    } else {
      assert a + 1 == (q + 1) * m + 0;
      ModUnique(a + 1, m, q + 1, 0);
      ModUnique(r + 1, m, 1, 0);
    }
  }

  /** `n` successive "tab" keys. */
  function TabsFrom(inputs: seq<Input>, focus: int, n: nat): (o: EnvOutcome)
    requires 0 <= focus < |inputs|
    ensures |o.inputs| == |inputs| && 0 <= o.focus < |inputs|
    decreases n
  {
    if n == 0 then EnvOutcome(inputs, focus, false)
    else
      var before := TabsFrom(inputs, focus, n - 1);
      EnvKey(before.inputs, before.focus, "tab")
  }

  // ---- the client list -----------------------------------------------------

  /** The two host entries, labelled with the scope the operator chose. */
  function ClientLabels(global: bool): (labels: seq<string>)
    ensures |labels| == 2
  {
    var scope := if global then "Global" else "Current Dir";
    ["Claude Code (" + scope + ")", "Gemini CLI (" + scope + ")"]
  }

  /** A missing key of the `selected` map reads as false, as in Go. */
  predicate IsOn(selected: map<int, bool>, i: int) {
    i in selected && selected[i]
  }

  /** The outcome of a key in the client list. */
  datatype Selection = Selection(cursor: int, selected: map<int, bool>, confirmed: bool)

  /** A key in the client list: "up"/"k" and "down"/"j" move the cursor
      without leaving the list, space toggles the entry under the cursor, and
      "enter" confirms. */
  function ClientKey(cursor: int, selected: map<int, bool>, count: int, key: string): (o: Selection)
    requires 0 <= cursor < count
    ensures 0 <= o.cursor < count
    ensures o.confirmed <==> key == "enter"
    ensures (key == "up" || key == "k") ==> o.cursor == if cursor == 0 then 0 else cursor - 1
    ensures (key == "down" || key == "j") ==> o.cursor == if cursor == count - 1 then cursor else cursor + 1
    ensures key != "up" && key != "k" && key != "down" && key != "j" ==> o.cursor == cursor
    ensures key == " " ==>
      && o.selected.Keys == selected.Keys + {cursor}
      && IsOn(o.selected, cursor) == !IsOn(selected, cursor)
      && forall i :: i != cursor ==> IsOn(o.selected, i) == IsOn(selected, i)
    ensures key != " " ==> o.selected == selected
  {
    if key == "up" || key == "k" then
      Selection(if cursor > 0 then cursor - 1 else cursor, selected, false)
    else if key == "down" || key == "j" then
      Selection(if cursor < count - 1 then cursor + 1 else cursor, selected, false)
    else if key == " " then
      Selection(cursor, selected[cursor := !IsOn(selected, cursor)], false)
    else
      Selection(cursor, selected, key == "enter")
  }

  /** Toggling the same entry twice restores the selection. */
  lemma ToggleTwice(cursor: int, selected: map<int, bool>, count: int)
    requires 0 <= cursor < count && cursor in selected
    ensures var once := ClientKey(cursor, selected, count, " ");
      ClientKey(once.cursor, once.selected, count, " ").selected == selected
  {
    var once := ClientKey(cursor, selected, count, " ");
    var twice := ClientKey(once.cursor, once.selected, count, " ");
    assert twice.selected.Keys == selected.Keys;
    assert forall i :: i in selected ==> twice.selected[i] == selected[i];
  }

  /** Moving down and back up returns to the same entry when there is room. */
  lemma DownThenUp(cursor: int, selected: map<int, bool>, count: int)
    requires 0 <= cursor < count - 1
    ensures var down := ClientKey(cursor, selected, count, "down");
      ClientKey(down.cursor, down.selected, count, "up").cursor == cursor
  {
  }

  /** The hosts to register with: the command-line host iff entry 0 is
      selected, the file-merge host iff entry 1 is, in that order. */
  function SelectedTools(selected: map<int, bool>): (tools: seq<string>)
    ensures |tools| <= 2
    ensures ClaudeCodeTool in tools <==> IsOn(selected, 0)
    ensures GeminiCliTool in tools <==> IsOn(selected, 1)
    ensures |tools| == 2 ==> tools == [ClaudeCodeTool, GeminiCliTool]
  {
    (if IsOn(selected, 0) then [ClaudeCodeTool] else []) + (if IsOn(selected, 1) then [GeminiCliTool] else [])
  }

  /** The `registerClients` helper: the tool list built by appends, then `Register`. */
  method RegisterClients(r: BuildResult, selected: map<int, bool>, env: map<string, string>, global: bool,
                         order: seq<string>, w: Workstation)
    returns (err: Option<RegisterError>, w': Workstation)
    requires forall i :: 0 <= i < |order| ==> order[i] in env
    ensures (err, w') == RegisterSpec(r, SelectedTools(selected), env, order, w)
  {
    var tools: seq<string> := [];
    if IsOn(selected, 0) {
      tools := tools + [ClaudeCodeTool];
    }
    if IsOn(selected, 1) {
      tools := tools + [GeminiCliTool];
    }
    err, w' := Register(r, tools, env, global, order, w);
  }

  /** With nothing selected, registering touches nothing and succeeds. */
  lemma NothingSelected(r: BuildResult, selected: map<int, bool>, env: map<string, string>, order: seq<string>, w: Workstation)
    requires forall i :: 0 <= i < |order| ==> order[i] in env
    requires !IsOn(selected, 0) && !IsOn(selected, 1)
    ensures RegisterSpec(r, SelectedTools(selected), env, order, w) == (None, w)
  {
    assert SelectedTools(selected) == [];
  }

  // ---- gathering the environment -------------------------------------------

  /** `finalEnv[needs[i]] = inputs[i].Value()` for each i in order; a later
      duplicate name overwrites an earlier one. */
  function GatherEnv(needs: seq<string>, inputs: seq<Input>): (env: map<string, string>)
    requires |needs| <= |inputs|
    ensures forall k :: k in env <==> k in needs
    decreases |needs|
  {
    if needs == [] then map[]
    else
      var n := |needs| - 1;
      var prefix := GatherEnv(needs[..n], inputs);
      assert forall k :: k in needs <==> k in needs[..n] || k == needs[n] by {
        assert needs == needs[..n] + [needs[n]];
      }
      prefix[needs[n] := inputs[n].value]
  }

  /** Every variable gets the value typed for its last occurrence; with
      distinct names, variable i gets input i. */
  lemma {:induction false} GatherEnvValues(needs: seq<string>, inputs: seq<Input>, i: int)
    requires |needs| <= |inputs| && 0 <= i < |needs|
    requires forall j :: i < j < |needs| ==> needs[j] != needs[i]
    ensures GatherEnv(needs, inputs)[needs[i]] == inputs[i].value
    decreases |needs|
  {
    var n := |needs| - 1;
    if i < n {
      GatherEnvValues(needs[..n], inputs, i);
    }
  }

  /** The loop of the install wizard: every variable is read from its input. */
  method GatherAll(needs: seq<string>, inputs: seq<Input>) returns (env: map<string, string>)
    requires |needs| <= |inputs|
    ensures env == GatherEnv(needs, inputs)
  {
    env := map[];
    for i := 0 to |needs|
      invariant env == GatherEnv(needs[..i], inputs)
    {
      assert needs[..i + 1][..i] == needs[..i];
      env := env[needs[i] := inputs[i].value];
    }
    assert needs[..|needs|] == needs;
  }

  function Min(a: int, b: int): int {
    if a <= b then a else b
  }

  /** The loop of the update wizard: a variable with no input is skipped. */
  method GatherPresent(needs: seq<string>, inputs: seq<Input>) returns (env: map<string, string>)
    ensures env == GatherEnv(needs[..Min(|needs|, |inputs|)], inputs)
  {
    env := map[];
    for i := 0 to |needs|
      invariant env == GatherEnv(needs[..Min(i, |inputs|)], inputs)
    {
      if i < |inputs| {
        assert needs[..i + 1][..i] == needs[..i];
        env := env[needs[i] := inputs[i].value];
      }
    }
    assert needs[..|needs|] == needs;
  }
}
