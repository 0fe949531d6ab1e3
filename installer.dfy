/** The install wizard: a state machine that waits for the clone, then for
    the build, asks for each environment variable the build needs, lets the
    operator pick the hosts, and registers the server with them.

    `InstallState` is the wizard's state as a value and `Transition` says what
    one message does to it; the class `InstallModel` holds the same fields and
    its methods update them in place, each proved to agree with `Transition`. */
module Installer {
  import opened Common
  import opened Station
  import opened BuildTypes
  import opened Injector
  import opened Wizard

  datatype Phase = Fetching | Building | ConfigEnv | SelectingClient | Done

  datatype InstallState = InstallState(
    phase: Phase,
    err: Option<WizardError>,
    repoUrl: string,
    repoName: string,
    repoPath: string,
    build: Option<BuildResult>,   // nil until the build message arrives
    global: bool,
    inputs: seq<Input>,
    focus: int,
    clients: seq<string>,
    selected: map<int, bool>,
    cursor: int)

  function Initial(repoUrl: string, repoName: string, global: bool): InstallState {
    InstallState(Fetching, None, repoUrl, repoName, "", None, global, [], 0,
                 ClientLabels(global), map[0 := true, 1 := true], 0)
  }

  /** The invariant every reachable state keeps: the cursor is on one of the
      two entries; before the build nothing is known and no input exists;
      after it there is one input per needed variable; the focus indexes an
      input and exactly that input is focused. */
  predicate Valid(s: InstallState) {
    && |s.clients| == 2
    && 0 <= s.cursor < |s.clients|
    && s.selected.Keys == {0, 1}
    && (s.phase == Fetching || s.phase == Building ==> s.build == None && s.inputs == [] && s.focus == 0)
    && (s.phase != Fetching && s.phase != Building ==>
          s.build.Some? && |s.inputs| == |s.build.value.envNeeds|)
    && (s.phase == ConfigEnv ==> s.inputs != [])
    && (s.inputs != [] ==> 0 <= s.focus < |s.inputs| && OneFocused(s.inputs, s.focus))
  }

  /** The order in which the runtime delivers messages: the clone's answer
      only while fetching, the build's answer only while building. */
  predicate Expected(s: InstallState, msg: Msg) {
    && (msg.RepoFetched? ==> s.phase == Fetching)
    && (msg.BuildFinished? ==> s.phase == Building)
  }

  /** `order` is an iteration order of the gathered variables. */
  predicate OrderFits(s: InstallState, order: seq<string>) {
    s.build.Some? ==> forall i :: 0 <= i < |order| ==> order[i] in s.build.value.envNeeds
  }

  /** `updateEnvInputs`. */
  function EnvStep(s: InstallState, key: string): InstallState
    requires 0 <= s.focus < |s.inputs|
  {
    var o := EnvKey(s.inputs, s.focus, key);
    s.(inputs := o.inputs, focus := o.focus, phase := if o.confirmed then SelectingClient else s.phase)
  }

  /** `updateClientSelection`: on "enter" the variables are gathered, the
      selected hosts registered, and the wizard quits, keeping any
      registration error. */
  function ClientStep(s: InstallState, key: string, w: Workstation, order: seq<string>): (InstallState, Cmd, Workstation)
    requires Valid(s) && s.phase == SelectingClient && OrderFits(s, order)
  {
    var o := ClientKey(s.cursor, s.selected, |s.clients|, key);
    if !o.confirmed then (s.(cursor := o.cursor, selected := o.selected), NoCmd, w)
    else
      var env := GatherEnv(s.build.value.envNeeds, s.inputs);
      var reg := RegisterSpec(s.build.value, SelectedTools(s.selected), env, order, w);
      (s.(phase := Done, err := if reg.0.Some? then Some(RegistrationFailed(reg.0.value)) else s.err), Quit, reg.1)
  }

  /** `Model.Update`: what one message does. */
  function Transition(s: InstallState, msg: Msg, w: Workstation, order: seq<string>): (InstallState, Cmd, Workstation)
    requires Valid(s) && Expected(s, msg) && OrderFits(s, order)
  {
    match msg
    case Key(k) =>
      if k == "ctrl+c" || k == "esc" then (s, Quit, w)
      else if s.phase == ConfigEnv then (EnvStep(s, k), NoCmd, w)
      else if s.phase == SelectingClient then ClientStep(s, k, w, order)
      else (s, NoCmd, w)
    case RepoFetched(path) => (s.(repoPath := path, phase := Building), BuildRepo(path), w)
    case BuildFinished(res) =>
      if |res.envNeeds| > 0 then
        (s.(build := Some(res), phase := ConfigEnv, inputs := FreshInputs(res.envNeeds)), NoCmd, w)
      else
        (s.(build := Some(res), phase := SelectingClient), NoCmd, w)
    case Failure(reason) => (s.(err := Some(Aborted(reason))), Quit, w)
    case SpinnerTick => (s, SpinnerCmd, w)
  }

  // ---- properties ----------------------------------------------------------

  /** The wizard starts fetching, with both hosts selected, the cursor on
      the first and no input. */
  lemma InitialState(repoUrl: string, repoName: string, global: bool)
    ensures var s := Initial(repoUrl, repoName, global);
      && Valid(s) && s.phase == Fetching && s.err == None
      && IsOn(s.selected, 0) && IsOn(s.selected, 1)
      && s.cursor == 0 && s.focus == 0 && s.inputs == []
  {
  }

  /** Every message keeps the invariant. */
  lemma StepKeepsValid(s: InstallState, msg: Msg, w: Workstation, order: seq<string>)
    requires Valid(s) && Expected(s, msg) && OrderFits(s, order)
    ensures Valid(Transition(s, msg, w, order).0)
  {
    match msg
    case Key(k) =>
      if k != "ctrl+c" && k != "esc" && s.phase == SelectingClient {
        var o := ClientKey(s.cursor, s.selected, |s.clients|, k);
        assert o.selected.Keys == {0, 1};
      }
    case BuildFinished(res) =>
    case _ =>
  }

  /** "ctrl+c" and "esc" quit from every phase and change nothing. */
  lemma QuitKeys(s: InstallState, k: string, w: Workstation, order: seq<string>)
    requires Valid(s) && OrderFits(s, order)
    requires k == "ctrl+c" || k == "esc"
    ensures Transition(s, Key(k), w, order) == (s, Quit, w)
  {
  }

  /** Keys while fetching, building or done change nothing. */
  lemma IdleKeys(s: InstallState, k: string, w: Workstation, order: seq<string>)
    requires Valid(s) && OrderFits(s, order)
    requires s.phase == Fetching || s.phase == Building || s.phase == Done
    requires k != "ctrl+c" && k != "esc"
    ensures Transition(s, Key(k), w, order) == (s, NoCmd, w)
  {
  }

  /** The clone's directory is recorded and its build started. */
  lemma FetchedStartsBuild(s: InstallState, path: string, w: Workstation, order: seq<string>)
    requires Valid(s) && s.phase == Fetching && OrderFits(s, order)
    ensures var r := Transition(s, RepoFetched(path), w, order);
      r.0.phase == Building && r.0.repoPath == path && r.1 == BuildRepo(path) && r.2 == w
  {
  }

  /** A build that needs variables opens one input per variable, only the
      first focused; one that needs none goes straight to host selection. */
  lemma BuiltOpensInputs(s: InstallState, res: BuildResult, w: Workstation, order: seq<string>)
    requires Valid(s) && s.phase == Building && OrderFits(s, order)
    ensures var t := Transition(s, BuildFinished(res), w, order).0;
      && t.build == Some(res)
      && (res.envNeeds != [] ==>
            && t.phase == ConfigEnv && |t.inputs| == |res.envNeeds|
            && (forall i :: 0 <= i < |t.inputs| ==> t.inputs[i].name == res.envNeeds[i] && t.inputs[i].value == "")
            && t.focus == 0 && OneFocused(t.inputs, 0))
      && (res.envNeeds == [] ==> t.phase == SelectingClient && t.inputs == [])
  {
  }

  /** The clone's or build's failure is recorded and the wizard quits. */
  lemma FailureQuits(s: InstallState, reason: string, w: Workstation, order: seq<string>)
    requires Valid(s) && OrderFits(s, order)
    ensures Transition(s, Failure(reason), w, order) == (s.(err := Some(Aborted(reason))), Quit, w)
  {
  }

  /** "enter" on the last input moves to host selection with the focus kept;
      on an earlier input it moves the focus on by one. */
  lemma EnterInInputs(s: InstallState, w: Workstation, order: seq<string>)
    requires Valid(s) && s.phase == ConfigEnv && OrderFits(s, order)
    ensures var t := Transition(s, Key("enter"), w, order).0;
      && (s.focus == |s.inputs| - 1 ==> t.phase == SelectingClient && t.focus == s.focus)
      && (s.focus < |s.inputs| - 1 ==> t.phase == ConfigEnv && t.focus == s.focus + 1)
  {
  }

  /** "enter" in host selection registers the typed values with exactly the
      selected hosts, records a registration error, and quits. */
  lemma EnterRegisters(s: InstallState, w: Workstation, order: seq<string>, i: int)
    requires Valid(s) && s.phase == SelectingClient && OrderFits(s, order)
    requires 0 <= i < |s.build.value.envNeeds|
    requires forall j :: i < j < |s.build.value.envNeeds| ==> s.build.value.envNeeds[j] != s.build.value.envNeeds[i]
    ensures var env := GatherEnv(s.build.value.envNeeds, s.inputs);
      var reg := RegisterSpec(s.build.value, SelectedTools(s.selected), env, order, w);
      var r := Transition(s, Key("enter"), w, order);
      && env[s.build.value.envNeeds[i]] == s.inputs[i].value
      && r.0.phase == Done && r.1 == Quit && r.2 == reg.1
      && (reg.0.Some? ==> r.0.err == Some(RegistrationFailed(reg.0.value)))
      && (reg.0 == None ==> r.0.err == s.err)
  {
    GatherEnvValues(s.build.value.envNeeds, s.inputs, i);
  }

  // ---- the model -----------------------------------------------------------

  class InstallModel {
    var phase: Phase
    var err: Option<WizardError>
    var repoUrl: string
    var repoName: string
    var repoPath: string
    var build: Option<BuildResult>
    var global: bool
    var inputs: seq<Input>
    var focus: int
    var clients: seq<string>
    var selected: map<int, bool>
    var cursor: int

    function State(): InstallState
      reads this
    {
      InstallState(phase, err, repoUrl, repoName, repoPath, build, global, inputs, focus, clients, selected, cursor)
    }

    /** `NewInstallModel`. */
    constructor (repoUrl: string, repoName: string, global: bool)
      ensures State() == Initial(repoUrl, repoName, global)
      ensures Valid(State())
    {
      phase := Fetching;
      err := None;
      this.repoUrl := repoUrl;
      this.repoName := repoName;
      repoPath := "";
      build := None;
      this.global := global;
      inputs := [];
      focus := 0;
      clients := ClientLabels(global);
      selected := map[0 := true, 1 := true];
      cursor := 0;
    }

    /** `updateEnvInputs`. */
    method UpdateEnvInputs(key: string)
      modifies this
      requires Valid(State()) && phase == ConfigEnv
      ensures State() == EnvStep(old(State()), key)
    {
      if key == "enter" {
        if focus == |inputs| - 1 {
          phase := SelectingClient;
          return;
        }
        inputs := inputs[focus := inputs[focus].(focused := false)];
        focus := focus + 1;
        inputs := inputs[focus := inputs[focus].(focused := true)];
        return;
      } else if key == "tab" {
        inputs := inputs[focus := inputs[focus].(focused := false)];
        focus := (focus + 1) % |inputs|;
        inputs := inputs[focus := inputs[focus].(focused := true)];
        return;
      }
      inputs := inputs[focus := TypeKey(inputs[focus], key)];
    }

    /** `updateClientSelection`. */
    method UpdateClientSelection(key: string, w: Workstation, order: seq<string>) returns (cmd: Cmd, w': Workstation)
      modifies this
      requires Valid(State()) && phase == SelectingClient && OrderFits(State(), order)
      ensures (State(), cmd, w') == ClientStep(old(State()), key, w, order)
    {
      w' := w;
      cmd := NoCmd;
      if key == "up" || key == "k" {
        if cursor > 0 {
          cursor := cursor - 1;
        }
      } else if key == "down" || key == "j" {
        if cursor < |clients| - 1 {
          cursor := cursor + 1;
        }
      } else if key == " " {
        selected := selected[cursor := !IsOn(selected, cursor)];
      } else if key == "enter" {
        phase := Done;
        var finalEnv := GatherAll(build.value.envNeeds, inputs);
        var e;
        e, w' := RegisterClients(build.value, selected, finalEnv, global, order, w);
        if e.Some? {
          err := Some(RegistrationFailed(e.value));
        }
        cmd := Quit;
      }
    }

    /** `Model.Update`. */
    method Update(msg: Msg, w: Workstation, order: seq<string>) returns (cmd: Cmd, w': Workstation)
      modifies this
      requires Valid(State()) && Expected(State(), msg) && OrderFits(State(), order)
      ensures (State(), cmd, w') == Transition(old(State()), msg, w, order)
      ensures Valid(State())
    {
      StepKeepsValid(State(), msg, w, order);
      w' := w;
      match msg
      case Key(k) =>
        if k == "ctrl+c" || k == "esc" {
          return Quit, w;
        }
        if phase == ConfigEnv {
          UpdateEnvInputs(k);
          return NoCmd, w;
        }
        if phase == SelectingClient {
          cmd, w' := UpdateClientSelection(k, w, order);
          return;
        }
        cmd := NoCmd;
      case RepoFetched(path) =>
        repoPath := path;
        phase := Building;
        cmd := BuildRepo(repoPath);
      case BuildFinished(res) =>
        build := Some(res);
        if |res.envNeeds| > 0 {
          phase := ConfigEnv;
          inputs := MakeInputs(res.envNeeds);
          return NoCmd, w;
        }
        phase := SelectingClient;
        cmd := NoCmd;
      case Failure(reason) =>
        err := Some(Aborted(reason));
        cmd := Quit;
      case SpinnerTick =>
        cmd := SpinnerCmd;
    }
  }
}
