/** The update wizard: the same machine as the install wizard without the
    clone step. It starts by rebuilding an existing server, asks for the
    variables the build needs, and re-registers with the selected hosts.

    `UpdateState` and `Transition` state it on values; the class
    `UpdateModel` updates the same fields in place. */
module Updater {
  import opened Common
  import opened Station
  import opened BuildTypes
  import opened Injector
  import opened Wizard

  datatype Phase = Building | ConfigEnv | SelectingClient | Done

  datatype UpdateState = UpdateState(
    phase: Phase,
    err: Option<WizardError>,
    serverPath: string,
    serverName: string,
    build: Option<BuildResult>,
    global: bool,
    inputs: seq<Input>,
    focus: int,
    clients: seq<string>,
    selected: map<int, bool>,
    cursor: int)

  function Initial(serverPath: string, serverName: string, global: bool): UpdateState {
    UpdateState(Building, None, serverPath, serverName, None, global, [], 0,
                ClientLabels(global), map[0 := true, 1 := true], 0)
  }

  /** The invariant of every reachable state, as for the install wizard. */
  predicate Valid(s: UpdateState) {
    && |s.clients| == 2
    && 0 <= s.cursor < |s.clients|
    && s.selected.Keys == {0, 1}
    && (s.phase == Building ==> s.build == None && s.inputs == [] && s.focus == 0)
    && (s.phase != Building ==> s.build.Some? && |s.inputs| == |s.build.value.envNeeds|)
    && (s.phase == ConfigEnv ==> s.inputs != [])
    && (s.inputs != [] ==> 0 <= s.focus < |s.inputs| && OneFocused(s.inputs, s.focus))
  }

  /** The build's answer arrives only while building. */
  predicate Expected(s: UpdateState, msg: Msg) {
    msg.BuildFinished? ==> s.phase == Building
  }

  predicate OrderFits(s: UpdateState, order: seq<string>) {
    s.build.Some? ==> forall i :: 0 <= i < |order| ==> order[i] in s.build.value.envNeeds
  }

  /** The update wizard's `updateEnvInputs`. */
  function EnvStep(s: UpdateState, key: string): UpdateState
    requires 0 <= s.focus < |s.inputs|
  {
    var o := EnvKey(s.inputs, s.focus, key);
    s.(inputs := o.inputs, focus := o.focus, phase := if o.confirmed then SelectingClient else s.phase)
  }

  /** The update wizard's `updateClientSelection`: on "enter" only variables
      that have an input are gathered, and `Register` is called only when at
      least one host is selected. */
  function ClientStep(s: UpdateState, key: string, w: Workstation, order: seq<string>): (UpdateState, Cmd, Workstation)
    requires Valid(s) && s.phase == SelectingClient && OrderFits(s, order)
  {
    var o := ClientKey(s.cursor, s.selected, |s.clients|, key);
    if !o.confirmed then (s.(cursor := o.cursor, selected := o.selected), NoCmd, w)
    else
      var needs := s.build.value.envNeeds;
      assert needs[..Min(|needs|, |s.inputs|)] == needs;
      var env := GatherEnv(needs[..Min(|needs|, |s.inputs|)], s.inputs);
      if IsOn(s.selected, 0) || IsOn(s.selected, 1) then
        var reg := RegisterSpec(s.build.value, SelectedTools(s.selected), env, order, w);
        (s.(phase := Done, err := if reg.0.Some? then Some(RegistrationFailed(reg.0.value)) else s.err), Quit, reg.1)
      else
        (s.(phase := Done), Quit, w)
  }

  /** `UpdateModel.Update`. */
  function Transition(s: UpdateState, msg: Msg, w: Workstation, order: seq<string>): (UpdateState, Cmd, Workstation)
    requires Valid(s) && Expected(s, msg) && OrderFits(s, order)
  {
    match msg
    case Key(k) =>
      if k == "ctrl+c" || k == "esc" then (s, Quit, w)
      else if s.phase == ConfigEnv then (EnvStep(s, k), NoCmd, w)
      else if s.phase == SelectingClient then ClientStep(s, k, w, order)
      else (s, NoCmd, w)
    case RepoFetched(_) => (s, NoCmd, w)
    case BuildFinished(res) =>
      if |res.envNeeds| > 0 then
        (s.(build := Some(res), phase := ConfigEnv, inputs := FreshInputs(res.envNeeds)), NoCmd, w)
      else
        (s.(build := Some(res), phase := SelectingClient), NoCmd, w)
    case Failure(reason) => (s.(err := Some(Aborted(reason))), Quit, w)
    case SpinnerTick => (s, SpinnerCmd, w)
  }

  // ---- properties ----------------------------------------------------------

  /** The wizard starts building (there is no fetch step), with both hosts
      selected. */
  lemma InitialState(serverPath: string, serverName: string, global: bool)
    ensures var s := Initial(serverPath, serverName, global);
      && Valid(s) && s.phase == Building && s.err == None
      && IsOn(s.selected, 0) && IsOn(s.selected, 1)
      && s.cursor == 0 && s.focus == 0 && s.inputs == []
  {
  }

  lemma StepKeepsValid(s: UpdateState, msg: Msg, w: Workstation, order: seq<string>)
    requires Valid(s) && Expected(s, msg) && OrderFits(s, order)
    ensures Valid(Transition(s, msg, w, order).0)
  {
    match msg
    case Key(k) =>
      if k != "ctrl+c" && k != "esc" && s.phase == SelectingClient {
        var o := ClientKey(s.cursor, s.selected, |s.clients|, k);
        assert o.selected.Keys == {0, 1};
      }
    case _ =>
  }

  /** "ctrl+c"/"esc" quit from every phase without change; the clone's
      message, which this wizard never asks for, changes nothing. */
  lemma QuitAndStrayMessages(s: UpdateState, k: string, path: string, w: Workstation, order: seq<string>)
    requires Valid(s) && OrderFits(s, order)
    requires k == "ctrl+c" || k == "esc"
    ensures Transition(s, Key(k), w, order) == (s, Quit, w)
    ensures Transition(s, RepoFetched(path), w, order) == (s, NoCmd, w)
  {
  }

  lemma BuiltOpensInputs(s: UpdateState, res: BuildResult, w: Workstation, order: seq<string>)
    requires Valid(s) && s.phase == Building && OrderFits(s, order)
    ensures var t := Transition(s, BuildFinished(res), w, order).0;
      && t.build == Some(res)
      && (res.envNeeds != [] ==>
            && t.phase == ConfigEnv && |t.inputs| == |res.envNeeds|
            && (forall i :: 0 <= i < |t.inputs| ==> t.inputs[i].name == res.envNeeds[i] && t.inputs[i].value == "")
            && t.focus == 0 && OneFocused(t.inputs, 0))
      && (res.envNeeds == [] ==> t.phase == SelectingClient && t.inputs == [])
  {
  }

  lemma FailureQuits(s: UpdateState, reason: string, w: Workstation, order: seq<string>)
    requires Valid(s) && OrderFits(s, order)
    ensures Transition(s, Failure(reason), w, order) == (s.(err := Some(Aborted(reason))), Quit, w)
  {
  }

  /** On reachable states the two guards of "enter" change nothing: every
      variable has an input, and skipping `Register` with no host selected
      gives what registering with no host would. So the update wizard's
      "enter" is the install wizard's. */
  lemma EnterIsUnguarded(s: UpdateState, w: Workstation, order: seq<string>)
    requires Valid(s) && s.phase == SelectingClient && OrderFits(s, order)
    ensures var env := GatherEnv(s.build.value.envNeeds, s.inputs);
      var reg := RegisterSpec(s.build.value, SelectedTools(s.selected), env, order, w);
      Transition(s, Key("enter"), w, order) ==
        (s.(phase := Done, err := if reg.0.Some? then Some(RegistrationFailed(reg.0.value)) else s.err), Quit, reg.1)
  {
    var needs := s.build.value.envNeeds;
    assert needs[..Min(|needs|, |s.inputs|)] == needs;
    var env := GatherEnv(needs, s.inputs);
    if !IsOn(s.selected, 0) && !IsOn(s.selected, 1) {
      NothingSelected(s.build.value, s.selected, env, order, w);
    }
  }

  // ---- the model -----------------------------------------------------------

  class UpdateModel {
    var phase: Phase
    var err: Option<WizardError>
    var serverPath: string
    var serverName: string
    var build: Option<BuildResult>
    var global: bool
    var inputs: seq<Input>
    var focus: int
    var clients: seq<string>
    var selected: map<int, bool>
    var cursor: int

    function State(): UpdateState
      reads this
    {
      UpdateState(phase, err, serverPath, serverName, build, global, inputs, focus, clients, selected, cursor)
    }

    /** `NewUpdateModel`. */
    constructor (serverPath: string, serverName: string, global: bool)
      ensures State() == Initial(serverPath, serverName, global)
      ensures Valid(State())
    {
      phase := Building;
      err := None;
      this.serverPath := serverPath;
      this.serverName := serverName;
      build := None;
      this.global := global;
      inputs := [];
      focus := 0;
      clients := ClientLabels(global);
      selected := map[0 := true, 1 := true];
      cursor := 0;
    }

    method UpdateEnvInputs(key: string)
      modifies this
      requires Valid(State()) && phase == ConfigEnv
      ensures State() == EnvStep(old(State()), key)
    {
      if key == "enter" {
        if focus == |inputs| - 1 {
          phase := SelectingClient;
          return;
        }
        inputs := inputs[focus := inputs[focus].(focused := false)];
        focus := focus + 1;
        inputs := inputs[focus := inputs[focus].(focused := true)];
        return;
      } else if key == "tab" {
        inputs := inputs[focus := inputs[focus].(focused := false)];
        focus := (focus + 1) % |inputs|;
        inputs := inputs[focus := inputs[focus].(focused := true)];
        return;
      }
      inputs := inputs[focus := TypeKey(inputs[focus], key)];
    }

    method UpdateClientSelection(key: string, w: Workstation, order: seq<string>) returns (cmd: Cmd, w': Workstation)
      modifies this
      requires Valid(State()) && phase == SelectingClient && OrderFits(State(), order)
      ensures (State(), cmd, w') == ClientStep(old(State()), key, w, order)
    {
      w' := w;
      cmd := NoCmd;
      if key == "up" || key == "k" {
        if cursor > 0 {
          cursor := cursor - 1;
        }
      } else if key == "down" || key == "j" {
        if cursor < |clients| - 1 {
          cursor := cursor + 1;
        }
      } else if key == " " {
        selected := selected[cursor := !IsOn(selected, cursor)];
      } else if key == "enter" {
        cmd, w' := Confirm(w, order);
      }
    }

    /** The "enter" branch of `updateClientSelection`: gather the values,
        register only when a host is selected, and quit. */
    method Confirm(w: Workstation, order: seq<string>) returns (cmd: Cmd, w': Workstation)
      modifies this
      requires Valid(State()) && phase == SelectingClient && OrderFits(State(), order)
      ensures (State(), cmd, w') == ClientStep(old(State()), "enter", w, order)
    {
      w' := w;
      phase := Done;
      var finalEnv := GatherPresent(build.value.envNeeds, inputs);
      assert build.value.envNeeds[..Min(|build.value.envNeeds|, |inputs|)] == build.value.envNeeds;
      if IsOn(selected, 0) || IsOn(selected, 1) {
        var e;
        e, w' := RegisterClients(build.value, selected, finalEnv, global, order, w);
        if e.Some? {
          err := Some(RegistrationFailed(e.value));
        }
      }
      cmd := Quit;
    }

    /** `UpdateModel.Update`. */
    method Update(msg: Msg, w: Workstation, order: seq<string>) returns (cmd: Cmd, w': Workstation)
      modifies this
      requires Valid(State()) && Expected(State(), msg) && OrderFits(State(), order)
      ensures (State(), cmd, w') == Transition(old(State()), msg, w, order)
      ensures Valid(State())
    {
      StepKeepsValid(State(), msg, w, order);
      w' := w;
      match msg
      case Key(k) =>
        if k == "ctrl+c" || k == "esc" {
          return Quit, w;
        }
        if phase == ConfigEnv {
          UpdateEnvInputs(k);
          return NoCmd, w;
        }
        if phase == SelectingClient {
          cmd, w' := UpdateClientSelection(k, w, order);
          return;
        }
        cmd := NoCmd;
      case RepoFetched(_) =>
        cmd := NoCmd;
      case BuildFinished(res) =>
        build := Some(res);
        if |res.envNeeds| > 0 {
          phase := ConfigEnv;
          inputs := MakeInputs(res.envNeeds);
          return NoCmd, w;
        }
        phase := SelectingClient;
        cmd := NoCmd;
      case Failure(reason) =>
        err := Some(Aborted(reason));
        cmd := Quit;
      case SpinnerTick =>
        cmd := SpinnerCmd;
    }
  }
}
