// The Execution Manager as a step system. A single worker thread runs the queued
// setMachineState requests; remote calls are served between any two of its steps.
module Protocol {
  import opened Types

  // What the manifest reader delivers: processes per machine state, and the machine states.
  datatype Config = Config(supported: map<string, set<string>>, states: seq<string>)

  // Calls made on the application handler and on the remote client.
  datatype Call =
    | Kill(process: string)
    | Start(process: string)
    | Notify(component: string, state: string)
    | ConfirmTransition(status: StateError)

  // The fields of the ExecutionManager object; calls records its outgoing calls.
  datatype Em = Em(
    active: set<string>,
    allowed: map<string, set<string>>,
    current: string,
    pending: string,
    component: string,
    registered: set<string>,
    awaiting: set<string>,
    subscribers: seq<string>,
    ready: bool,
    confirmed: bool,
    calls: seq<Call>)

  // Where the worker thread stands in getExecutor / setMachineState.
  datatype Worker =
    | Idle
    | Resetting(request: string)
    | Checking(request: string)
    | PlanningKills
    | Killing(toKill: set<string>)
    | PlanningStarts
    | Starting(plan: set<string>, toStart: set<string>, rounds: nat, msmAlive: bool)
    | Switching
    | Filling
    | FirstTest
    | WaitHead
    | WaitActive
    | WaitConfirms
    | Confirming
    | Committing

  // The server object: the manager, the request queue, the registered client, the worker.
  datatype State = State(em: Em, queue: seq<string>, msmPid: int, worker: Worker)

  datatype Event =
    // remote calls
    | Report(app: string, appState: AppState)
    | Register(component: string, mode: UpdateMode)
    | Fetch(component: string)
    | ConfirmComponent(component: string, state: string, status: ReturnType)
    | RegisterMsm(pid: int, name: string)
    | Request(pid: int, state: string)
    // worker steps
    | Pop
    | ResetFlags
    | CheckRequest
    | SnapshotKills
    | KillOne(process: string)
    | KillsDone
    | SnapshotStarts
    | StartOne(process: string)
    | PollRound(alive: set<string>)
    | StartsDone
    | SwitchComponents
    | FillPending
    | TestFirst
    | LoopHead
    | SampleActive
    | SampleConfirms
    | SendConfirm
    | Commit
  {
    predicate IsWorker() {
      !(Report? || Register? || Fetch? || ConfirmComponent? || RegisterMsm? || Request?)
    }
  }

  // ---------------------------------------------------------------- manager operations

  function Filtered(c: Config): map<string, set<string>> {
    map st | st in c.supported && st in c.states :: c.supported[st]
  }

  // The processes a machine state may have: those of its manifests, none for a foreign state.
  function Allowed(c: Config, st: string): set<string> {
    Lookup(Filtered(c), st)
  }

  function NewManager(c: Config): Em {
    Em({}, Filtered(c), "", "", "", {}, {}, [], false, false, [])
  }

  function ComponentStateFor(machineState: string): string {
    if machineState == MACHINE_STATE_SUSPEND then COMPONENT_STATE_OFF else COMPONENT_STATE_ON
  }

  predicate ComponentsMayRelease(machineState: string) {
    machineState == MACHINE_STATE_SUSPEND || machineState == MACHINE_STATE_RUNNING
  }

  // std::string::find("msm") != npos
  predicate NamesMsm(process: string) {
    exists i :: 0 <= i <= |process| - 3 && process[i..][..3] == "msm"
  }

  lemma NamesMsmIff(process: string)
    ensures NamesMsm(process) <==> exists a, b: string :: process == a + "msm" + b
  {
    if i :| 0 <= i <= |process| - 3 && process[i..][..3] == "msm" {
      assert process == process[..i] + "msm" + process[i..][3..];
    }
    if a, b: string :| process == a + "msm" + b {
      assert process[|a|..][..3] == "msm";
    }
  }

  // One round of the start-up poll: a live process of the plan names msm.
  predicate SeesMsm(plan: set<string>, alive: set<string>) {
    exists p :: p in plan && p in alive && NamesMsm(p)
  }

  // The guards of the wait loops, negated.
  predicate WaitOver(em: Em) {
    em.ready || (ComponentsMayRelease(em.pending) && em.confirmed)
  }

  function ReportState(em: Em, app: string, st: AppState): Em {
    match st
    case ShuttingDown => em.(active := em.active - {app})
    case Running => em.(active := em.active + {app})
    case _ => em
  }

  function RegisterComponent(em: Em, component: string, mode: UpdateMode): Em {
    em.(registered := em.registered + {component},
        subscribers := if mode.Event? then em.subscribers + [component] else em.subscribers)
  }

  // The reply of getComponentState; an unknown caller keeps its empty state.
  function ComponentReply(em: Em, component: string): (string, ReturnType) {
    if component in em.registered then (em.component, KSuccess) else ("", KGeneralError)
  }

  function ConfirmState(em: Em, component: string, status: ReturnType): Em {
    if em.awaiting == {} then em.(confirmed := true)
    else if status == KGeneralError || status == KInvalid then em
    else
      var left := em.awaiting - {component};
      em.(awaiting := left, confirmed := left == {})
  }

  function KillProcess(em: Em, process: string): Em {
    em.(subscribers := Without(em.subscribers, {process}), calls := em.calls + [Kill(process)])
  }

  function StartProcess(em: Em, process: string): Em {
    em.(calls := em.calls + [Start(process)])
  }

  function Notices(subscribers: seq<string>, st: string): seq<Call> {
    seq(|subscribers|, i requires 0 <= i < |subscribers| => Notify(subscribers[i], st))
  }

  function NotifyComponents(em: Em): Em {
    em.(awaiting := em.awaiting + em.registered,
        calls := em.calls + Notices(em.subscribers, em.component))
  }

  // isConfirmAvailable: operator[] leaves an empty entry behind for an absent state.
  function SampleActiveSet(em: Em): Em {
    em.(allowed := em.allowed[em.pending := Lookup(em.allowed, em.pending)],
        ready := em.active == Lookup(em.allowed, em.pending))
  }

  // ---------------------------------------------------------------- the step system

  function Init(c: Config): State {
    State(NewManager(c), [MACHINE_STATE_STARTUP], -1, Idle)
  }

  predicate Enabled(s: State, e: Event) {
    var w := s.worker;
    match e
    case Pop => w.Idle? && s.queue != []
    case ResetFlags => w.Resetting?
    case CheckRequest => w.Checking?
    case SnapshotKills => w.PlanningKills?
    case KillOne(p) => w.Killing? && p in w.toKill
    case KillsDone => w.Killing? && w.toKill == {}
    case SnapshotStarts => w.PlanningStarts?
    case StartOne(p) => w.Starting? && p in w.toStart
    case PollRound(_) =>
      && w.Starting? && s.em.pending == MACHINE_STATE_STARTUP
      && !w.msmAlive && w.rounds < STARTUP_POLL_ROUNDS
    case StartsDone =>
      && w.Starting? && w.toStart == {}
      && (s.em.pending != MACHINE_STATE_STARTUP || w.msmAlive || w.rounds == STARTUP_POLL_ROUNDS)
    case SwitchComponents => w.Switching?
    case FillPending => w.Filling?
    case TestFirst => w.FirstTest?
    case LoopHead => w.WaitHead?
    case SampleActive => w.WaitActive?
    case SampleConfirms => w.WaitConfirms?
    case SendConfirm => w.Confirming?
    case Commit => w.Committing?
    case _ => true
  }

  predicate RegistrationAccepted(s: State, pid: int, name: string) {
    (s.msmPid == -1 || s.msmPid == pid) && name != ""
  }

  function Next(c: Config, s: State, e: Event): State
    requires Enabled(s, e)
  {
    var em, w := s.em, s.worker;
    match e
    case Report(a, st) => s.(em := ReportState(em, a, st))
    case Register(k, mode) => s.(em := RegisterComponent(em, k, mode))
    case Fetch(_) => s
    case ConfirmComponent(k, _, status) => s.(em := ConfirmState(em, k, status))
    case RegisterMsm(pid, name) => if RegistrationAccepted(s, pid, name) then s.(msmPid := pid) else s
    case Request(pid, st) => if pid == s.msmPid then s.(queue := s.queue + [st]) else s
    case Pop => s.(queue := s.queue[1..], worker := Resetting(s.queue[0]))
    case ResetFlags => s.(em := em.(ready := false, confirmed := false), worker := Checking(w.request))
    case CheckRequest =>
      if w.request !in c.states || w.request == em.current then s.(worker := Idle)
      else s.(em := em.(pending := w.request), worker := PlanningKills)
    case SnapshotKills => s.(worker := Killing(em.active - Lookup(em.allowed, em.pending)))
    case KillOne(p) => s.(em := KillProcess(em, p), worker := Killing(w.toKill - {p}))
    case KillsDone => s.(worker := PlanningStarts)
    case SnapshotStarts =>
      var plan := Lookup(em.allowed, em.pending) - em.active;
      s.(worker := Starting(plan, plan, 0, false))
    case StartOne(p) => s.(em := StartProcess(em, p), worker := w.(toStart := w.toStart - {p}))
    case PollRound(alive) =>
      s.(worker := w.(rounds := w.rounds + 1, msmAlive := SeesMsm(w.plan, alive)))
    case StartsDone =>
      if em.pending == MACHINE_STATE_STARTUP && !w.msmAlive then s.(worker := Idle)
      else s.(worker := Switching)
    case SwitchComponents => s.(em := em.(component := ComponentStateFor(em.pending)), worker := Filling)
    case FillPending => s.(em := NotifyComponents(em), worker := FirstTest)
    case TestFirst => s.(em := SampleActiveSet(em), worker := WaitHead)
    case LoopHead =>
      if WaitOver(em) then s.(worker := Confirming)
      else s.(worker := WaitActive)
    case SampleActive =>
      s.(em := SampleActiveSet(em),
         worker := if ComponentsMayRelease(em.pending) then WaitConfirms else WaitHead)
    case SampleConfirms => s.(em := em.(confirmed := em.awaiting == {}), worker := WaitHead)
    case SendConfirm =>
      s.(em := em.(calls := em.calls + [ConfirmTransition(Success)]), worker := Committing)
    case Commit => s.(em := em.(current := em.pending), worker := Idle)
  }

  // ---------------------------------------------------------------- runs

  // es can be taken, one event after the other, from s.
  predicate ValidFrom(c: Config, s: State, es: seq<Event>)
    decreases |es|, 0
  {
    es == [] ||
    (ValidFrom(c, s, es[..|es| - 1]) && Enabled(After(c, s, es[..|es| - 1]), es[|es| - 1]))
  }

  function After(c: Config, s: State, es: seq<Event>): State
    requires ValidFrom(c, s, es)
    decreases |es|, 1
  {
    if es == [] then s else Next(c, After(c, s, es[..|es| - 1]), es[|es| - 1])
  }

  // A run of the system from its start, and the state before its event i.
  predicate Run(c: Config, es: seq<Event>) {
    ValidFrom(c, Init(c), es)
  }

  function Final(c: Config, es: seq<Event>): State
    requires Run(c, es)
  {
    After(c, Init(c), es)
  }

  lemma {:induction false} ValidPrefix(c: Config, s: State, es: seq<Event>, i: nat)
    requires ValidFrom(c, s, es) && i <= |es|
    ensures ValidFrom(c, s, es[..i])
  {
    if i == |es| {
      assert es[..i] == es;
    } else {
      var p := es[..|es| - 1];
      ValidPrefix(c, s, p, i);
      assert p[..i] == es[..i];
    }
  }

  function At(c: Config, es: seq<Event>, i: nat): State
    requires Run(c, es) && i <= |es|
  {
    ValidPrefix(c, Init(c), es, i);
    Final(c, es[..i])
  }

  // Runs are the chains of enabled steps: the state after event i is Next of the one before it.
  lemma StepAt(c: Config, es: seq<Event>, i: nat)
    requires Run(c, es) && i < |es|
    ensures Enabled(At(c, es, i), es[i])
    ensures At(c, es, i + 1) == Next(c, At(c, es, i), es[i])
  {
    ValidPrefix(c, Init(c), es, i + 1);
    assert es[..i + 1][..i] == es[..i];
  }

  lemma PrefixAt(c: Config, es: seq<Event>, n: nat, i: nat)
    requires Run(c, es) && i <= n <= |es|
    ensures Run(c, es[..n])
    ensures At(c, es[..n], i) == At(c, es, i)
  {
    ValidPrefix(c, Init(c), es, n);
    assert es[..n][..i] == es[..i];
  }

  lemma {:induction false} AfterAppend(c: Config, s: State, a: seq<Event>, b: seq<Event>)
    requires ValidFrom(c, s, a + b)
    ensures ValidFrom(c, s, a) && ValidFrom(c, After(c, s, a), b)
    ensures After(c, s, a + b) == After(c, After(c, s, a), b)
  {
    if b == [] {
      assert a + b == a;
    } else {
      var n := |b| - 1;
      assert (a + b)[..|a + b| - 1] == a + b[..n];
      AfterAppend(c, s, a, b[..n]);
    }
  }
}
