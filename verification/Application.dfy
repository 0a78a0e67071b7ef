// An adaptive application: its Init/Run/Suspend/ShutDown machine and its component state.
module Application {
  import opened Types

  datatype Phase = NotStarted | InInit | InRun | InSuspend | InShutDown

  datatype ConfirmSent = ConfirmSent(state: string, status: ReturnType)

  // reports and confirms are what the application has sent to the Execution Manager.
  datatype App = App(phase: Phase, component: string, reports: seq<AppState>, confirms: seq<ConfirmSent>)

  // What one performAction works on: the reply to a poll, or the server queue's next element.
  datatype Input =
    | Reply(state: string, result: ReturnType)
    | Message(state: string)
    | NoMessage

  const NEW_APP := App(NotStarted, COMPONENT_STATE_ON, [], [])

  // Entering a state reports it, except for Suspend.
  function Enter(a: App, phase: Phase): App {
    var reported := match phase
      case InInit => [Initializing]
      case InRun => [Running]
      case InShutDown => [ShuttingDown]
      case _ => [];
    a.(phase := phase, reports := a.reports + reported)
  }

  function Init(a: App): App { Enter(a, InInit) }

  function Run(a: App): App { Enter(a, InRun).(component := COMPONENT_STATE_ON) }

  function Suspend(a: App): App { Enter(a, InSuspend).(component := COMPONENT_STATE_OFF) }

  function Terminate(a: App): App { Enter(a, InShutDown) }

  predicate IsValid(st: string) { st == COMPONENT_STATE_ON || st == COMPONENT_STATE_OFF }

  function SetComponentState(a: App, st: string): (App, ReturnType) {
    if !IsValid(st) then (a, KInvalid)
    else if st == a.component then (a, KUnchanged)
    else (if st == COMPONENT_STATE_ON then Run(a) else Suspend(a), KSuccess)
  }

  function Confirm(a: App, st: string, status: ReturnType): App {
    a.(confirms := a.confirms + [ConfirmSent(st, status)])
  }

  function Perform(a: App, input: Input): App {
    match input
    case Reply(st, KSuccess) =>
      var (b, status) := SetComponentState(a, st);
      Confirm(b, st, status)
    case Reply(st, result) => Confirm(a, st, result)
    case Message(st) =>
      var (b, status) := SetComponentState(a, st);
      Confirm(b, st, status)
    case NoMessage => a
  }

  // init, run, then one action per input.
  function Life(inputs: seq<Input>): App {
    if inputs == [] then Run(Init(NEW_APP)) else Perform(Life(inputs[..|inputs| - 1]), inputs[|inputs| - 1])
  }

  // The phases entered after the first run, in order.
  function Moves(inputs: seq<Input>): seq<Phase> {
    if inputs == [] then []
    else
      var p := inputs[..|inputs| - 1];
      if Life(inputs).phase != Life(p).phase then Moves(p) + [Life(inputs).phase] else Moves(p)
  }

  // Running with kOn or suspended with kOff.
  predicate Settled(a: App) {
    (a.phase == InRun && a.component == COMPONENT_STATE_ON)
    || (a.phase == InSuspend && a.component == COMPONENT_STATE_OFF)
  }

  lemma ActionStep(a: App, input: Input)
    requires Settled(a)
    ensures var b := Perform(a, input);
            Settled(b) && b.reports == a.reports + if a.phase != InRun && b.phase == InRun then [Running] else []
  {
    assert |COMPONENT_STATE_ON| != |COMPONENT_STATE_OFF|;
    assert a.reports + [] == a.reports;
  }

  // Suspends and resumes alternate, starting with a suspend; the phase and the component state
  // agree and are settled by how many there were; only resumes report.
  lemma {:induction false} LifeAlternates(inputs: seq<Input>)
    ensures var a, ms := Life(inputs), Moves(inputs);
            && (a.phase == InRun || a.phase == InSuspend)
            && (a.phase == InRun <==> a.component == COMPONENT_STATE_ON)
            && (a.phase == InSuspend <==> a.component == COMPONENT_STATE_OFF)
            && (forall i :: 0 <= i < |ms| ==> ms[i] == if i % 2 == 0 then InSuspend else InRun)
            && (a.phase == InSuspend <==> |ms| % 2 == 1)
            && |a.reports| == 2 + |ms| / 2 && a.reports[0] == Initializing
            && (forall i :: 1 <= i < |a.reports| ==> a.reports[i] == Running)
  {
    if inputs != [] {
      LifeAlternates(inputs[..|inputs| - 1]);
      ActionStep(Life(inputs[..|inputs| - 1]), inputs[|inputs| - 1]);
    }
    assert |COMPONENT_STATE_ON| != |COMPONENT_STATE_OFF|;
  }

  predicate Heard(input: Input) {
    input.Message? || (input.Reply? && input.result == KSuccess)
  }

  // What one action does after any life: one confirm unless there was no message, whose status
  // tells a change from no change from nonsense, and passes a failed fetch on.
  lemma ActionConfirmsOnce(inputs: seq<Input>, input: Input)
    ensures var a, b := Life(inputs), Life(inputs + [input]);
            && (input.NoMessage? ==> b == a)
            && (!input.NoMessage? ==>
                  && |b.confirms| == |a.confirms| + 1 && a.confirms <= b.confirms
                  && var sent := b.confirms[|a.confirms|];
                  && sent.state == input.state
                  && if Heard(input) then
                       && (sent.status == KSuccess <==> b.phase != a.phase)
                       && var known := input.state == COMPONENT_STATE_ON || input.state == COMPONENT_STATE_OFF;
                       && (sent.status == KUnchanged <==> known && input.state == a.component)
                       && (sent.status == KInvalid <==> !known)
                       && b.component == if known then input.state else a.component
                     else sent.status == input.result && b.phase == a.phase && b.component == a.component)
  {
    assert (inputs + [input])[..|inputs|] == inputs;
    LifeAlternates(inputs);
    assert |COMPONENT_STATE_ON| != |COMPONENT_STATE_OFF|;
  }

  function Confirming(inputs: seq<Input>): nat {
    if inputs == [] then 0
    else Confirming(inputs[..|inputs| - 1]) + if inputs[|inputs| - 1].NoMessage? then 0 else 1
  }

  lemma {:induction false} ConfirmsCountActions(inputs: seq<Input>)
    ensures |Life(inputs).confirms| == Confirming(inputs)
  {
    if inputs != [] {
      var p := inputs[..|inputs| - 1];
      ConfirmsCountActions(p);
      assert inputs == p + [inputs[|inputs| - 1]];
      ActionConfirmsOnce(p, inputs[|inputs| - 1]);
    }
  }

  // The application object, updated in place.
  class AdaptiveApp {
    var currentState: Phase
    var componentState: string
    const eventModeEnabled: bool
    ghost var reports: seq<AppState>
    ghost var confirms: seq<ConfirmSent>

    ghost function View(): App
      reads this
    {
      App(currentState, componentState, reports, confirms)
    }

    constructor (eventMode: bool)
      ensures View() == NEW_APP && eventModeEnabled == eventMode
    {
      currentState, componentState := NotStarted, COMPONENT_STATE_ON;
      eventModeEnabled := eventMode;
      reports, confirms := [], [];
    }

    method EnterState(phase: Phase)
      modifies this`currentState, this`reports
      ensures View() == Enter(old(View()), phase)
    {
      currentState := phase;
      match phase
      case InInit => reports := reports + [Initializing];
      case InRun => reports := reports + [Running];
      case InShutDown => reports := reports + [ShuttingDown];
      case _ => assert reports + [] == reports;
    }

    method InitState()
      modifies this
      ensures View() == Init(old(View()))
    {
      EnterState(InInit);
    }

    // transitToNextState leaves the old state first, so there must be one.
    method RunState()
      requires currentState != NotStarted
      modifies this
      ensures View() == Run(old(View()))
    {
      EnterState(InRun);
      componentState := COMPONENT_STATE_ON;
    }

    method SuspendState()
      requires currentState != NotStarted
      modifies this
      ensures View() == Suspend(old(View()))
    {
      EnterState(InSuspend);
      componentState := COMPONENT_STATE_OFF;
    }

    method TerminateState()
      requires currentState != NotStarted
      modifies this
      ensures View() == Terminate(old(View()))
    {
      EnterState(InShutDown);
    }

    method SetState(st: string) returns (status: ReturnType)
      requires currentState != NotStarted
      modifies this
      ensures (View(), status) == SetComponentState(old(View()), st)
    {
      status := KSuccess;
      if IsValid(st) {
        if componentState != st && st == COMPONENT_STATE_ON {
          RunState();
        } else if componentState != st && st == COMPONENT_STATE_OFF {
          SuspendState();
        } else {
          status := KUnchanged;
        }
      } else {
        status := KInvalid;
      }
    }

    method PollComponentState(st: string, fetched: ReturnType)
      requires currentState != NotStarted
      modifies this
      ensures View() == Perform(old(View()), Reply(st, fetched))
    {
      var result := fetched;
      if result == KSuccess {
        result := SetState(st);
      }
      confirms := confirms + [ConfirmSent(st, result)];
    }

    method StateUpdateHandler(st: string)
      requires currentState != NotStarted
      modifies this
      ensures View() == Perform(old(View()), Message(st))
    {
      var status := SetState(st);
      confirms := confirms + [ConfirmSent(st, status)];
    }

    method PerformAction(input: Input)
      requires currentState != NotStarted
      requires if eventModeEnabled then !input.Reply? else input.Reply?
      modifies this
      ensures View() == Perform(old(View()), input)
    {
      if eventModeEnabled {
        if input.Message? {
          StateUpdateHandler(input.state);
        }
      } else {
        PollComponentState(input.state, input.result);
      }
    }

    // The life of a process up to its termination request.
    method Live(inputs: seq<Input>)
      requires View() == NEW_APP
      requires forall i :: 0 <= i < |inputs| ==> if eventModeEnabled then !inputs[i].Reply? else inputs[i].Reply?
      modifies this
      ensures View() == Terminate(Life(inputs))
      ensures currentState == InShutDown && reports == Life(inputs).reports + [ShuttingDown]
      ensures componentState == Life(inputs).component && confirms == Life(inputs).confirms
    {
      InitState();
      RunState();
      for i := 0 to |inputs|
        invariant View() == Life(inputs[..i]) && currentState != NotStarted
      {
        assert inputs[..i + 1][..i] == inputs[..i];
        LifeAlternates(inputs[..i + 1]);
        PerformAction(inputs[i]);
      }
      assert inputs[..|inputs|] == inputs;
      TerminateState();
    }
  }
}
