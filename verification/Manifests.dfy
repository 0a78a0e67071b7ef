// Manifests, their JSON form, and what the manifest reader makes of them.
module Manifests {
  import opened Types
  import opened Storage
  import opened Protocol
  import Plans

  datatype OptionKind = LongForm | ShortForm | SimpleForm
  datatype InstanceMode = InstanceMode(functionGroup: string, mode: string)
  datatype StartupOption = StartupOption(kind: OptionKind, name: string, arg: string)
  datatype StartupConfig = StartupConfig(modes: seq<InstanceMode>, options: seq<StartupOption>)
  datatype Process = Process(name: string, configs: seq<StartupConfig>)
  datatype ApplicationManifest = ApplicationManifest(id: string, processes: seq<Process>)
  datatype ModeGroup = ModeGroup(name: string, modes: seq<string>)
  datatype MachineManifest = MachineManifest(id: string, groups: seq<ModeGroup>)

  const MACHINE_STATE_GROUP := "MachineState"

  // ------------------------------------------------------------ encoders and decoders

  function EncodeList<T>(xs: seq<T>, enc: T -> Json): Json {
    Arr(seq(|xs|, i requires 0 <= i < |xs| => enc(xs[i])))
  }

  function DecodeItems<T>(js: seq<Json>, dec: Json -> Option<T>): Option<seq<T>> {
    if js == [] then Some([])
    else
      match (dec(js[0]), DecodeItems(js[1..], dec))
      case (Some(x), Some(xs)) => Some([x] + xs)
      case _ => None
  }

  function DecodeList<T>(j: Json, dec: Json -> Option<T>): Option<seq<T>> {
    if j.Arr? then DecodeItems(j.items, dec) else None
  }

  function DecodeText(j: Json): Option<string> {
    if j.Str? then Some(j.text) else None
  }

  // at(key): throws when j is no object or has no such key.
  function Field(j: Json, key: string): Json
    requires HasKey(j, key)
  {
    j.fields[key]
  }

  function TextField(j: Json, key: string): Option<string> {
    if HasKey(j, key) then DecodeText(Field(j, key)) else None
  }

  function ListField<T>(j: Json, key: string, dec: Json -> Option<T>): Option<seq<T>> {
    if HasKey(j, key) then DecodeList(Field(j, key), dec) else None
  }

  function EncodeKind(k: OptionKind): Json {
    match k
    case SimpleForm => Str("commandLineSimpleForm")
    case ShortForm => Str("commandLineShortForm")
    case LongForm => Str("commandLineLongForm")
  }

  // The serialization macro falls back to its first entry for anything it does not know.
  function DecodeKind(j: Json): OptionKind {
    if j == Str("commandLineShortForm") then ShortForm
    else if j == Str("commandLineLongForm") then LongForm
    else SimpleForm
  }

  function EncodeInstanceMode(m: InstanceMode): Json {
    Obj(map["Function_group" := Str(m.functionGroup), "Mode" := Str(m.mode)])
  }

  function DecodeInstanceMode(j: Json): Option<InstanceMode> {
    match (TextField(j, "Function_group"), TextField(j, "Mode"))
    case (Some(g), Some(m)) => Some(InstanceMode(g, m))
    case _ => None
  }

  function EncodeOption(o: StartupOption): Json {
    Obj(map["Option_kind" := EncodeKind(o.kind), "Option_name" := Str(o.name), "Option_arg" := Str(o.arg)])
  }

  function DecodeOption(j: Json): Option<StartupOption> {
    if !HasKey(j, "Option_kind") then None
    else
      match (TextField(j, "Option_name"), TextField(j, "Option_arg"))
      case (Some(n), Some(a)) => Some(StartupOption(DecodeKind(Field(j, "Option_kind")), n, a))
      case _ => None
  }

  function EncodeStartup(s: StartupConfig): Json {
    Obj(map["Startup_options" := EncodeList(s.options, EncodeOption),
            "Mode_in_machine_instance_refs" := EncodeList(s.modes, EncodeInstanceMode)])
  }

  function DecodeStartup(j: Json): Option<StartupConfig> {
    match (ListField(j, "Mode_in_machine_instance_refs", DecodeInstanceMode),
           ListField(j, "Startup_options", DecodeOption))
    case (Some(ms), Some(os)) => Some(StartupConfig(ms, os))
    case _ => None
  }

  function EncodeProcess(p: Process): Json {
    Obj(map["Process_name" := Str(p.name),
            "Mode_dependent_startup_configs" := EncodeList(p.configs, EncodeStartup)])
  }

  function DecodeProcess(j: Json): Option<Process> {
    match (TextField(j, "Process_name"), ListField(j, "Mode_dependent_startup_configs", DecodeStartup))
    case (Some(n), Some(cs)) => Some(Process(n, cs))
    case _ => None
  }

  function EncodeApplication(m: ApplicationManifest): Json {
    Obj(map["Application_manifest" :=
      Obj(map["Application_manifest_id" := Str(m.id), "Process" := EncodeList(m.processes, EncodeProcess)])])
  }

  function DecodeApplication(j: Json): Option<ApplicationManifest> {
    if !HasKey(j, "Application_manifest") then None
    else
      var inner := Field(j, "Application_manifest");
      match (TextField(inner, "Application_manifest_id"), ListField(inner, "Process", DecodeProcess))
      case (Some(id), Some(ps)) => Some(ApplicationManifest(id, ps))
      case _ => None
  }

  function EncodeMode(m: string): Json { Obj(map["Mode" := Str(m)]) }

  function DecodeMode(j: Json): Option<string> { TextField(j, "Mode") }

  function EncodeGroup(g: ModeGroup): Json {
    Obj(map["Function_group_name" := Str(g.name), "Mode_declarations" := EncodeList(g.modes, EncodeMode)])
  }

  function DecodeGroup(j: Json): Option<ModeGroup> {
    match (TextField(j, "Function_group_name"), ListField(j, "Mode_declarations", DecodeMode))
    case (Some(n), Some(ms)) => Some(ModeGroup(n, ms))
    case _ => None
  }

  function EncodeMachine(m: MachineManifest): Json {
    Obj(map["Machine_manifest" :=
      Obj(map["Machine_manifest_id" := Str(m.id), "Mode_declaration_group" := EncodeList(m.groups, EncodeGroup)])])
  }

  function DecodeMachine(j: Json): Option<MachineManifest> {
    if !HasKey(j, "Machine_manifest") then None
    else
      var inner := Field(j, "Machine_manifest");
      match (TextField(inner, "Machine_manifest_id"), ListField(inner, "Mode_declaration_group", DecodeGroup))
      case (Some(id), Some(gs)) => Some(MachineManifest(id, gs))
      case _ => None
  }

  // Lists round-trip when their elements do.
  lemma {:induction false} ListRoundTrip<T(!new)>(xs: seq<T>, enc: T -> Json, dec: Json -> Option<T>)
    requires forall x :: x in xs ==> dec(enc(x)) == Some(x)
    ensures DecodeList(EncodeList(xs, enc), dec) == Some(xs)
  {
    if xs != [] {
      ListRoundTrip(xs[1..], enc, dec);
      assert EncodeList(xs, enc).items[1..] == EncodeList(xs[1..], enc).items;
      assert xs[0] in xs;
      assert [xs[0]] + xs[1..] == xs;
    }
  }

  lemma OptionRoundTrip(o: StartupOption)
    ensures DecodeOption(EncodeOption(o)) == Some(o)
  {
    assert |"commandLineShortForm"| != |"commandLineLongForm"|;
    assert |"commandLineSimpleForm"| > |"commandLineShortForm"|;
  }

  // The names of the three kinds; anything else is read as the first of them.
  lemma KindNames(j: Json)
    ensures EncodeKind(SimpleForm) == Str("commandLineSimpleForm") && EncodeKind(ShortForm) == Str("commandLineShortForm")
            && EncodeKind(LongForm) == Str("commandLineLongForm")
    ensures DecodeKind(j) == SimpleForm <==> j != Str("commandLineShortForm") && j != Str("commandLineLongForm")
    ensures DecodeKind(j) == ShortForm <==> j == Str("commandLineShortForm")
  {
    assert |"commandLineShortForm"| != |"commandLineLongForm"|;
  }

  lemma StartupRoundTrip(s: StartupConfig)
    ensures DecodeStartup(EncodeStartup(s)) == Some(s)
  {
    forall o | o in s.options ensures DecodeOption(EncodeOption(o)) == Some(o) { OptionRoundTrip(o); }
    ListRoundTrip(s.options, EncodeOption, DecodeOption);
    ListRoundTrip(s.modes, EncodeInstanceMode, DecodeInstanceMode);
  }

  lemma ProcessRoundTrip(p: Process)
    ensures DecodeProcess(EncodeProcess(p)) == Some(p)
  {
    forall s | s in p.configs ensures DecodeStartup(EncodeStartup(s)) == Some(s) { StartupRoundTrip(s); }
    ListRoundTrip(p.configs, EncodeStartup, DecodeStartup);
  }

  lemma ApplicationRoundTrip(m: ApplicationManifest)
    ensures DecodeApplication(EncodeApplication(m)) == Some(m)
  {
    forall p | p in m.processes ensures DecodeProcess(EncodeProcess(p)) == Some(p) { ProcessRoundTrip(p); }
    ListRoundTrip(m.processes, EncodeProcess, DecodeProcess);
  }

  lemma GroupRoundTrip(g: ModeGroup)
    ensures DecodeGroup(EncodeGroup(g)) == Some(g)
  {
    ListRoundTrip(g.modes, EncodeMode, DecodeMode);
  }

  lemma MachineRoundTrip(m: MachineManifest)
    ensures DecodeMachine(EncodeMachine(m)) == Some(m)
  {
    forall g | g in m.groups ensures DecodeGroup(EncodeGroup(g)) == Some(g) { GroupRoundTrip(g); }
    ListRoundTrip(m.groups, EncodeGroup, DecodeGroup);
  }

  // ------------------------------------------------------------ the manifest reader

  function ServiceName(app: string, process: string): string {
    app + "_" + process
  }

  predicate ConfigNames(s: StartupConfig, st: string) {
    InstanceMode("MachineState", st) in s.modes
  }

  predicate ProcessNames(p: Process, st: string) {
    exists s :: s in p.configs && ConfigNames(s, st)
  }

  ghost predicate ManifestDeclares(m: ApplicationManifest, st: string, service: string) {
    exists p :: p in m.processes && service == m.id + "_" + p.name && ProcessNames(p, st)
  }

  // Some manifest has a process of this service name with a startup configuration for st.
  ghost predicate Declares(ms: seq<ApplicationManifest>, st: string, service: string) {
    exists m :: m in ms && ManifestDeclares(m, st, service)
  }

  // The innermost loop: the machine states of one startup configuration.
  method InvertConfig(s: StartupConfig, service: string, res: map<string, set<string>>)
    returns (r: map<string, set<string>>)
    ensures forall st, v :: v in Lookup(r, st) <==> v in Lookup(res, st) || (v == service && ConfigNames(s, st))
    ensures (forall st :: st in res ==> res[st] != {}) ==> forall st :: st in r ==> r[st] != {}
  {
    r := res;
    for i := 0 to |s.modes|
      invariant forall st, v :: v in Lookup(r, st) <==>
                  v in Lookup(res, st) || (v == service && InstanceMode(MACHINE_STATE_GROUP, st) in s.modes[..i])
      invariant (forall st :: st in res ==> res[st] != {}) ==> forall st :: st in r ==> r[st] != {}
    {
      var before := r;
      assert s.modes[..i + 1] == s.modes[..i] + [s.modes[i]];
      if s.modes[i].functionGroup == MACHINE_STATE_GROUP {
        var mode := s.modes[i].mode;
        r := r[mode := Lookup(r, mode) + {service}];
        forall st, v ensures v in Lookup(r, st) <==> v in Lookup(before, st) || (v == service && st == mode) {
        }
      }
    }
    assert s.modes[..|s.modes|] == s.modes;
  }

  method InvertProcess(p: Process, service: string, res: map<string, set<string>>)
    returns (r: map<string, set<string>>)
    ensures forall st, v :: v in Lookup(r, st) <==> v in Lookup(res, st) || (v == service && ProcessNames(p, st))
    ensures (forall st :: st in res ==> res[st] != {}) ==> forall st :: st in r ==> r[st] != {}
  {
    r := res;
    for i := 0 to |p.configs|
      invariant forall st, v :: v in Lookup(r, st) <==>
                  v in Lookup(res, st) || (v == service && exists s :: s in p.configs[..i] && ConfigNames(s, st))
      invariant (forall st :: st in res ==> res[st] != {}) ==> forall st :: st in r ==> r[st] != {}
    {
      assert p.configs[..i + 1] == p.configs[..i] + [p.configs[i]];
      r := InvertConfig(p.configs[i], service, r);
    }
    assert p.configs[..|p.configs|] == p.configs;
  }

  method InvertManifest(m: ApplicationManifest, res: map<string, set<string>>)
    returns (r: map<string, set<string>>)
    ensures forall st, v :: v in Lookup(r, st) <==> v in Lookup(res, st) || ManifestDeclares(m, st, v)
    ensures (forall st :: st in res ==> res[st] != {}) ==> forall st :: st in r ==> r[st] != {}
  {
    r := res;
    for i := 0 to |m.processes|
      invariant forall st, v :: v in Lookup(r, st) <==>
                  || v in Lookup(res, st)
                  || exists p :: p in m.processes[..i] && ServiceName(m.id, p.name) == v && ProcessNames(p, st)
      invariant (forall st :: st in res ==> res[st] != {}) ==> forall st :: st in r ==> r[st] != {}
    {
      assert m.processes[..i + 1] == m.processes[..i] + [m.processes[i]];
      r := InvertProcess(m.processes[i], ServiceName(m.id, m.processes[i].name), r);
    }
    assert m.processes[..|m.processes|] == m.processes;
  }

  // The map from machine states to processes is the inverse of the manifests' declarations.
  method GetStatesSupportedByApplication(ms: seq<ApplicationManifest>) returns (res: map<string, set<string>>)
    ensures forall st, v :: (st in res && v in res[st]) <==> Declares(ms, st, v)
    ensures forall st :: st in res ==> res[st] != {}
  {
    res := map[];
    for i := 0 to |ms|
      invariant forall st, v :: v in Lookup(res, st) <==> exists m :: m in ms[..i] && ManifestDeclares(m, st, v)
      invariant forall st :: st in res ==> res[st] != {}
    {
      assert ms[..i + 1] == ms[..i] + [ms[i]];
      res := InvertManifest(ms[i], res);
    }
    assert ms[..|ms|] == ms;
    forall st, v ensures (st in res && v in res[st]) <==> v in Lookup(res, st) {
    }
  }

  // The modes of the first group named MachineState; none when there is no such group.
  method GetMachineStates(m: MachineManifest) returns (res: seq<string>)
    ensures (forall g :: g in m.groups ==> g.name != "MachineState") ==> res == []
    ensures forall i :: 0 <= i < |m.groups| && m.groups[i].name == "MachineState"
                        && (forall j :: 0 <= j < i ==> m.groups[j].name != "MachineState")
                        ==> res == m.groups[i].modes
  {
    for i := 0 to |m.groups|
      invariant forall j :: 0 <= j < i ==> m.groups[j].name != MACHINE_STATE_GROUP
    {
      if m.groups[i].name == MACHINE_STATE_GROUP {
        res := [];
        for k := 0 to |m.groups[i].modes|
          invariant res == m.groups[i].modes[..k]
        {
          res := res + [m.groups[i].modes[k]];
        }
        return;
      }
    }
    res := [];
  }

  // With the configuration read from manifests ms: in every run a process is started only for a
  // machine state it is declared for, and killed only for one it is not declared for.
  lemma RunsFollowManifests(c: Config, ms: seq<ApplicationManifest>, es: seq<Event>, i: nat)
    requires forall st, v :: (st in c.supported && v in c.supported[st]) <==> Declares(ms, st, v)
    requires Run(c, es) && i < |es|
    ensures var st := At(c, es, i).em.pending;
            && (es[i].StartOne? ==> Declares(ms, st, es[i].process))
            && (es[i].KillOne? ==> !Declares(ms, st, es[i].process))
  {
    Plans.OnlyDeclaredStartOnlyUndeclaredDie(c, es, i);
  }
}
