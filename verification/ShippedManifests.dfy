// The manifests the program ships with, read as they stand.
module ShippedManifests {
  import opened Types
  import opened Storage
  import opened Manifests

  function ModeRef(mode: string): Json {
    Obj(map["Function_group" := Str("MachineState"), "Mode" := Str(mode)])
  }

  function Application(id: string, process: string, options: seq<Json>, refs: seq<Json>): Json {
    Obj(map["Application_manifest" := Obj(map[
      "Application_manifest_id" := Str(id),
      "Process" := Arr([Obj(map[
        "Mode_dependent_startup_configs" := Arr([Obj(map[
          "Startup_options" := Arr(options),
          "Mode_in_machine_instance_refs" := Arr(refs)])]),
        "Process_name" := Str(process)])])])])
  }

  const ADAPTIVE_APPLICATION_1 := Application(
    "AdaptiveApplication1", "proc1",
    [Obj(map["Option_kind" := Str("commandLineShortForm"), "Option_name" := Str("name"), "Option_arg" := Str("as")])],
    [ModeRef("Starting-up"), ModeRef("Running"), ModeRef("Suspend")])

  const MACHINE_STATE_MANAGER := Application(
    "MachineStateManager", "msm", [],
    [ModeRef("Starting-up"), ModeRef("Running"), ModeRef("Suspend"), ModeRef("Living")])

  function ModeDeclaration(mode: string): Json {
    Obj(map["Mode" := Str(mode)])
  }

  const MACHINE := Obj(map["Machine_manifest" := Obj(map[
    "Machine_manifest_id" := Str("Machine"),
    "Mode_declaration_group" := Arr([Obj(map[
      "Function_group_name" := Str("MachineState"),
      "Mode_declarations" := Arr([ModeDeclaration("Starting-up"), ModeDeclaration("Running"),
                                  ModeDeclaration("Suspend"), ModeDeclaration("Living"),
                                  ModeDeclaration("Shuttingdown")])])])])])

  // The one process of such a manifest and its startup configuration.
  function OneProcess(id: string, process: string, options: seq<StartupOption>, modes: seq<string>): ApplicationManifest {
    var refs := seq(|modes|, i requires 0 <= i < |modes| => InstanceMode("MachineState", modes[i]));
    ApplicationManifest(id, [Process(process, [StartupConfig(refs, options)])])
  }

  lemma ConfigIsRead(options: seq<StartupOption>, modes: seq<string>, optionTrees: seq<Json>, refTrees: seq<Json>)
    requires |optionTrees| == |options| && forall i :: 0 <= i < |options| ==> optionTrees[i] == EncodeOption(options[i])
    requires |refTrees| == |modes| && forall i :: 0 <= i < |modes| ==> refTrees[i] == ModeRef(modes[i])
    ensures var refs := seq(|modes|, i requires 0 <= i < |modes| => InstanceMode("MachineState", modes[i]));
            EncodeStartup(StartupConfig(refs, options))
            == Obj(map["Startup_options" := Arr(optionTrees), "Mode_in_machine_instance_refs" := Arr(refTrees)])
  {
    var refs := seq(|modes|, i requires 0 <= i < |modes| => InstanceMode("MachineState", modes[i]));
    assert EncodeList(options, EncodeOption).items == optionTrees;
    assert EncodeList(refs, EncodeInstanceMode).items == refTrees;
  }

  lemma ApplicationIsRead(id: string, process: string, options: seq<StartupOption>, modes: seq<string>,
                          optionTrees: seq<Json>, refTrees: seq<Json>)
    requires |optionTrees| == |options| && forall i :: 0 <= i < |options| ==> optionTrees[i] == EncodeOption(options[i])
    requires |refTrees| == |modes| && forall i :: 0 <= i < |modes| ==> refTrees[i] == ModeRef(modes[i])
    ensures DecodeApplication(Application(id, process, optionTrees, refTrees))
         == Some(OneProcess(id, process, options, modes))
  {
    var m := OneProcess(id, process, options, modes);
    var p := m.processes[0];
    ConfigIsRead(options, modes, optionTrees, refTrees);
    var config := EncodeStartup(p.configs[0]);
    assert EncodeList(p.configs, EncodeStartup) == Arr([config]);
    assert EncodeProcess(p) == Obj(map["Mode_dependent_startup_configs" := Arr([config]), "Process_name" := Str(process)]);
    assert EncodeList(m.processes, EncodeProcess) == Arr([EncodeProcess(p)]);
    ApplicationRoundTrip(m);
  }

  // The application's manifest declares the service AdaptiveApplication1_proc1 for three states.
  lemma AdaptiveApplicationIsRead()
    ensures DecodeApplication(ADAPTIVE_APPLICATION_1) == Some(OneProcess(
              "AdaptiveApplication1", "proc1", [StartupOption(ShortForm, "name", "as")],
              ["Starting-up", "Running", "Suspend"]))
  {
    ApplicationIsRead("AdaptiveApplication1", "proc1", [StartupOption(ShortForm, "name", "as")],
                      ["Starting-up", "Running", "Suspend"],
                      [Obj(map["Option_kind" := Str("commandLineShortForm"), "Option_name" := Str("name"),
                               "Option_arg" := Str("as")])],
                      [ModeRef("Starting-up"), ModeRef("Running"), ModeRef("Suspend")]);
  }

  // The Machine State Manager's declares MachineStateManager_msm, whose name the start-up poll of
  // the Execution Manager looks for, for four states, Starting-up among them, and no other.
  lemma StateManagerIsRead()
    ensures var m := DecodeApplication(MACHINE_STATE_MANAGER);
            && m == Some(OneProcess("MachineStateManager", "msm", [], ["Starting-up", "Running", "Suspend", "Living"]))
            && forall st, service :: ManifestDeclares(m.value, st, service) <==>
                 service == "MachineStateManager" + "_" + "msm" && st in ["Starting-up", "Running", "Suspend", "Living"]
  {
    var modes := ["Starting-up", "Running", "Suspend", "Living"];
    ApplicationIsRead("MachineStateManager", "msm", [], modes, [],
                      [ModeRef("Starting-up"), ModeRef("Running"), ModeRef("Suspend"), ModeRef("Living")]);
    forall st, service
      ensures ManifestDeclares(OneProcess("MachineStateManager", "msm", [], modes), st, service) <==>
                service == "MachineStateManager" + "_" + "msm" && st in modes
    {
      OneProcessDeclares("MachineStateManager", "msm", [], modes, st, service);
    }
  }

  lemma OneProcessDeclares(id: string, process: string, options: seq<StartupOption>, modes: seq<string>,
                           st: string, service: string)
    ensures ManifestDeclares(OneProcess(id, process, options, modes), st, service) <==>
              service == id + "_" + process && st in modes
  {
    var m := OneProcess(id, process, options, modes);
    var p := m.processes[0];
    var s := p.configs[0];
    assert ProcessNames(p, st) <==> ConfigNames(s, st);
    if st in modes {
      var i :| 0 <= i < |modes| && modes[i] == st;
      assert s.modes[i] == InstanceMode("MachineState", st);
    }
  }

  // The machine manifest names five machine states, in this order.
  lemma MachineIsRead()
    ensures DecodeMachine(MACHINE) == Some(MachineManifest("Machine", [ModeGroup(
              "MachineState", [MACHINE_STATE_STARTUP, MACHINE_STATE_RUNNING, MACHINE_STATE_SUSPEND, "Living",
                               MACHINE_STATE_SHUTTINGDOWN])]))
  {
    var modes := ["Starting-up", "Running", "Suspend", "Living", "Shuttingdown"];
    assert forall x: string :: ModeDeclaration(x) == EncodeMode(x);
    var g := ModeGroup("MachineState", modes);
    var m := MachineManifest("Machine", [g]);
    assert EncodeList(modes, EncodeMode).items
        == [ModeDeclaration("Starting-up"), ModeDeclaration("Running"), ModeDeclaration("Suspend"),
            ModeDeclaration("Living"), ModeDeclaration("Shuttingdown")];
    assert EncodeList(m.groups, EncodeGroup).items == [EncodeGroup(g)];
    MachineRoundTrip(m);
  }
}
