// The Execution Manager and its server as objects updated in place, proved against the steps.
module Manager {
  import opened Types
  import opened Protocol
  import P = Plans

  // Calls the remote side makes on the manager object itself.
  predicate ManagerCall(e: Event) {
    e.Report? || e.Register? || e.Fetch? || e.ConfirmComponent?
  }

  // What such a call makes of the manager, wherever the worker stands.
  function Called(em: Em, e: Event): Em
    requires ManagerCall(e)
  {
    match e
    case Report(app, st) => ReportState(em, app, st)
    case Register(k, mode) => RegisterComponent(em, k, mode)
    case Fetch(_) => em
    case ConfirmComponent(k, _, status) => ConfirmState(em, k, status)
  }

  lemma CallIsStep(c: Config, s: State, e: Event)
    requires ManagerCall(e)
    ensures Enabled(s, e) && !e.IsWorker() && Next(c, s, e) == s.(em := Called(s.em, e))
  {
  }

  // The remote calls among es, in order.
  function Remotes(es: seq<Event>): seq<Event> {
    if es == [] then []
    else Remotes(es[..|es| - 1]) + if es[|es| - 1].IsWorker() then [] else [es[|es| - 1]]
  }

  ghost predicate LeadsBy(c: Config, s: State, t: State, served: seq<Event>, es: seq<Event>) {
    ValidFrom(c, s, es) && After(c, s, es) == t && Remotes(es) == served
  }

  // Some run takes s to t; the remote calls served on the way are exactly these.
  ghost predicate Leads(c: Config, s: State, t: State, served: seq<Event>) {
    exists es :: LeadsBy(c, s, t, served, es)
  }

  lemma LeadsNowhere(c: Config, s: State)
    ensures Leads(c, s, s, [])
  {
    assert LeadsBy(c, s, s, [], []);
  }

  lemma LeadsOn(c: Config, s: State, t: State, served: seq<Event>, e: Event)
    requires Leads(c, s, t, served) && Enabled(t, e)
    ensures Leads(c, s, Next(c, t, e), served + if e.IsWorker() then [] else [e])
  {
    var es :| LeadsBy(c, s, t, served, es);
    assert (es + [e])[..|es|] == es;
    assert LeadsBy(c, s, Next(c, t, e), served + if e.IsWorker() then [] else [e], es + [e]);
  }

  lemma {:induction false} LeadsThrough(c: Config, s: State, t: State, u: State,
                                        sv: seq<Event>, tv: seq<Event>, es: seq<Event>)
    requires Leads(c, s, t, sv) && LeadsBy(c, t, u, tv, es)
    ensures Leads(c, s, u, sv + tv)
    decreases |es|
  {
    if es == [] {
      assert sv + tv == sv;
    } else {
      var n := |es| - 1;
      var m, r, e := After(c, t, es[..n]), Remotes(es[..n]), es[n];
      LeadsThrough(c, s, t, m, sv, r, es[..n]);
      LeadsOn(c, s, m, sv + r, e);
      var last := if e.IsWorker() then [] else [e];
      assert sv + r + last == sv + tv;
    }
  }

  lemma LeadsTo(c: Config, s: State, t: State, u: State, sv: seq<Event>, tv: seq<Event>)
    requires Leads(c, s, t, sv) && Leads(c, t, u, tv)
    ensures Leads(c, s, u, sv + tv)
  {
    var es :| LeadsBy(c, t, u, tv, es);
    LeadsThrough(c, s, t, u, sv, tv, es);
  }

  // A worker step adds nothing to what was served.
  lemma LeadsWork(c: Config, s: State, t: State, served: seq<Event>, e: Event)
    requires Leads(c, s, t, served) && Enabled(t, e) && e.IsWorker()
    ensures Leads(c, s, Next(c, t, e), served)
  {
    LeadsOn(c, s, t, served, e);
    assert served + [] == served;
  }

  // ------------------------------------------------------------ calls served between worker steps

  // env[k] holds the calls the event loop serves just before the worker's step k; later than
  // env says there are none.
  function Batch(env: seq<seq<Event>>, k: nat): seq<Event> {
    if k < |env| then env[k] else []
  }

  // The calls served before the first k steps.
  function Served(env: seq<seq<Event>>, k: nat): seq<Event> {
    if k == 0 then [] else Served(env, k - 1) + Batch(env, k - 1)
  }

  predicate ManagerCalls(es: seq<Event>) {
    forall e :: e in es ==> ManagerCall(e)
  }

  predicate Schedule(env: seq<seq<Event>>) {
    forall k :: 0 <= k < |env| ==> ManagerCalls(env[k])
  }

  function CalledAll(em: Em, es: seq<Event>): Em
    requires ManagerCalls(es)
  {
    if es == [] then em else Called(CalledAll(em, es[..|es| - 1]), es[|es| - 1])
  }

  // ------------------------------------------------------------ stretches without calls

  function AfterKills(em: Em, order: seq<string>): Em {
    em.(subscribers := Without(em.subscribers, Range(order)), calls := em.calls + P.KillCalls(order))
  }

  function AfterStarts(em: Em, order: seq<string>): Em {
    em.(calls := em.calls + P.StartCalls(order))
  }

  lemma KillNext(em: Em, order: seq<string>, p: string)
    ensures KillProcess(AfterKills(em, order), p) == AfterKills(em, order + [p])
  {
    WithoutTwice(em.subscribers, Range(order), {p});
    assert Range(order + [p]) == Range(order) + {p} by {
      assert forall x :: x in order + [p] <==> x in order || x == p;
    }
    assert em.calls + P.KillCalls(order) + [Kill(p)] == em.calls + P.KillCalls(order + [p]);
  }

  lemma {:induction false} KillLoopRuns(c: Config, s: State, plan: set<string>, order: seq<string>)
    requires s.worker.PlanningKills? && plan == s.em.active - Lookup(s.em.allowed, s.em.pending)
    requires Distinct(order) && Range(order) <= plan
    ensures Leads(c, s, s.(em := AfterKills(s.em, order), worker := Killing(plan - Range(order))), [])
  {
    if order == [] {
      LeadsNowhere(c, s);
      LeadsWork(c, s, s, [], SnapshotKills);
      WithoutNothing(s.em.subscribers);
      assert Range(order) == {};
      assert s.em.calls + P.KillCalls(order) == s.em.calls && plan - Range(order) == plan;
    } else {
      var n := |order| - 1;
      var o, p := order[..n], order[n];
      assert order == o + [p];
      assert p !in o && p in Range(order);
      assert forall x :: x in order <==> x in o || x == p;
      KillLoopRuns(c, s, plan, o);
      var t := s.(em := AfterKills(s.em, o), worker := Killing(plan - Range(o)));
      LeadsWork(c, s, t, [], KillOne(p));
      KillNext(s.em, o, p);
      assert plan - Range(o) - {p} == plan - Range(order);
    }
  }

  lemma KillRun(c: Config, s: State, order: seq<string>)
    requires s.worker.PlanningKills?
    requires P.Lists(order, s.em.active - Lookup(s.em.allowed, s.em.pending))
    ensures Leads(c, s, s.(em := AfterKills(s.em, order), worker := PlanningStarts), [])
  {
    var plan := s.em.active - Lookup(s.em.allowed, s.em.pending);
    KillLoopRuns(c, s, plan, order);
    var t := s.(em := AfterKills(s.em, order), worker := Killing(plan - Range(order)));
    LeadsWork(c, s, t, [], KillsDone);
  }

  lemma StartNext(em: Em, order: seq<string>, p: string)
    ensures StartProcess(AfterStarts(em, order), p) == AfterStarts(em, order + [p])
  {
    assert em.calls + P.StartCalls(order) + [Start(p)] == em.calls + P.StartCalls(order + [p]);
  }

  lemma {:induction false} StartLoopRuns(c: Config, s: State, plan: set<string>, order: seq<string>)
    requires s.worker.PlanningStarts? && plan == Lookup(s.em.allowed, s.em.pending) - s.em.active
    requires Distinct(order) && Range(order) <= plan
    ensures Leads(c, s, s.(em := AfterStarts(s.em, order),
                           worker := Starting(plan, plan - Range(order), 0, false)), [])
  {
    if order == [] {
      LeadsNowhere(c, s);
      LeadsWork(c, s, s, [], SnapshotStarts);
      assert Range(order) == {};
      assert s.em.calls + P.StartCalls(order) == s.em.calls && plan - Range(order) == plan;
    } else {
      var n := |order| - 1;
      var o, p := order[..n], order[n];
      assert order == o + [p];
      assert p !in o && p in Range(order);
      assert forall x :: x in order <==> x in o || x == p;
      StartLoopRuns(c, s, plan, o);
      var t := s.(em := AfterStarts(s.em, o), worker := Starting(plan, plan - Range(o), 0, false));
      LeadsWork(c, s, t, [], StartOne(p));
      StartNext(s.em, o, p);
      assert plan - Range(o) - {p} == plan - Range(order);
    }
  }

  // The first n rounds found no live msm process.
  predicate NoneSeen(plan: set<string>, alive: seq<set<string>>, n: nat)
    requires n <= |alive|
  {
    forall i :: 0 <= i < n ==> !SeesMsm(plan, alive[i])
  }

  // Six rounds, or those up to the first that saw a live msm process.
  predicate Polled(plan: set<string>, alive: seq<set<string>>, ok: bool, rounds: nat)
    requires |alive| == STARTUP_POLL_ROUNDS
  {
    && rounds <= STARTUP_POLL_ROUNDS && NoneSeen(plan, alive, rounds)
    && if ok then rounds < STARTUP_POLL_ROUNDS && SeesMsm(plan, alive[rounds])
       else rounds == STARTUP_POLL_ROUNDS
  }

  lemma PolledMeans(plan: set<string>, alive: seq<set<string>>, ok: bool, rounds: nat)
    requires |alive| == STARTUP_POLL_ROUNDS && Polled(plan, alive, ok, rounds)
    ensures ok <==> exists i, p :: 0 <= i < 6 && p in plan && p in alive[i]
                                   && exists a, b: string :: p == a + "msm" + b
  {
    forall p: string ensures NamesMsm(p) <==> exists a, b: string :: p == a + "msm" + b {
      NamesMsmIff(p);
    }
    if i, p :| 0 <= i < 6 && p in plan && p in alive[i] && NamesMsm(p) {
      assert SeesMsm(plan, alive[i]);
    }
    if ok {
      var p :| p in plan && p in alive[rounds] && NamesMsm(p);
    }
  }

  lemma {:induction false} PollRuns(c: Config, s: State, plan: set<string>, alive: seq<set<string>>, n: nat)
    requires s.worker == Starting(plan, {}, 0, false) && s.em.pending == MACHINE_STATE_STARTUP
    requires n <= |alive| == STARTUP_POLL_ROUNDS && NoneSeen(plan, alive, n)
    ensures Leads(c, s, s.(worker := Starting(plan, {}, n, false)), [])
  {
    if n == 0 {
      LeadsNowhere(c, s);
    } else {
      PollRuns(c, s, plan, alive, n - 1);
      assert !SeesMsm(plan, alive[n - 1]);
      LeadsWork(c, s, s.(worker := Starting(plan, {}, n - 1, false)), [], PollRound(alive[n - 1]));
    }
  }

  // The verdict of the start-up poll ends the starting phase either way.
  lemma StartRun(c: Config, s: State, order: seq<string>, alive: seq<set<string>>, rounds: nat, ok: bool)
    requires s.worker.PlanningStarts? && |alive| == STARTUP_POLL_ROUNDS
    requires P.Lists(order, Lookup(s.em.allowed, s.em.pending) - s.em.active)
    requires var plan := Lookup(s.em.allowed, s.em.pending) - s.em.active;
             s.em.pending == MACHINE_STATE_STARTUP ==> Polled(plan, alive, ok, rounds)
    requires s.em.pending != MACHINE_STATE_STARTUP ==> ok
    ensures Leads(c, s, s.(em := AfterStarts(s.em, order), worker := if ok then Switching else Idle), [])
  {
    var plan := Lookup(s.em.allowed, s.em.pending) - s.em.active;
    StartLoopRuns(c, s, plan, order);
    assert plan - Range(order) == {};
    var t := s.(em := AfterStarts(s.em, order), worker := Starting(plan, {}, 0, false));
    var u := t;
    if s.em.pending == MACHINE_STATE_STARTUP {
      PollRuns(c, t, plan, alive, rounds);
      u := t.(worker := Starting(plan, {}, rounds, false));
      LeadsTo(c, s, t, u, [], []);
      if ok {
        LeadsWork(c, s, u, [], PollRound(alive[rounds]));
        u := t.(worker := Starting(plan, {}, rounds + 1, true));
      }
    }
    LeadsWork(c, s, u, [], StartsDone);
  }

  function AfterChange(em: Em): Em {
    NotifyComponents(em.(component := ComponentStateFor(em.pending)))
  }

  lemma ChangeRun(c: Config, s: State)
    requires s.worker.Switching?
    ensures Leads(c, s, s.(em := SampleActiveSet(AfterChange(s.em)), worker := WaitHead), [])
  {
    LeadsNowhere(c, s);
    LeadsWork(c, s, s, [], SwitchComponents);
    var t := Next(c, s, SwitchComponents);
    LeadsWork(c, s, t, [], FillPending);
    LeadsWork(c, s, Next(c, t, FillPending), [], TestFirst);
  }

  // One turn of a wait loop's body.
  function Turn(em: Em): Em {
    var em' := SampleActiveSet(em);
    if ComponentsMayRelease(em.pending) then em'.(confirmed := em'.awaiting == {}) else em'
  }

  function AfterCommit(em: Em): Em {
    em.(calls := em.calls + [ConfirmTransition(Success)], current := em.pending)
  }

  lemma CommitRun(c: Config, s: State)
    requires s.worker.WaitHead? && WaitOver(s.em)
    ensures Leads(c, s, s.(em := AfterCommit(s.em), worker := Idle), [])
  {
    LeadsNowhere(c, s);
    LeadsWork(c, s, s, [], LoopHead);
    var t := Next(c, s, LoopHead);
    LeadsWork(c, s, t, [], SendConfirm);
    LeadsWork(c, s, Next(c, t, SendConfirm), [], Commit);
  }

  function AfterReset(em: Em): Em {
    em.(ready := false, confirmed := false)
  }

  lemma CheckRun(c: Config, s: State, state: string)
    requires s.worker == Resetting(state)
    ensures var em := AfterReset(s.em);
            Leads(c, s, if state !in c.states || state == em.current then s.(em := em, worker := Idle)
                        else s.(em := em.(pending := state), worker := PlanningKills), [])
  {
    LeadsNowhere(c, s);
    LeadsWork(c, s, s, [], ResetFlags);
    LeadsWork(c, s, Next(c, s, ResetFlags), [], CheckRequest);
  }

  // What a request that is refused leaves of the manager, calls being served around the reset.
  function Refused(em: Em, env: seq<seq<Event>>): Em
    requires Schedule(env)
  {
    CalledAll(AfterReset(CalledAll(em, Batch(env, 0))), Batch(env, 1))
  }

  class ExecutionManager {
    var active: set<string>
    var allowed: map<string, set<string>>
    var current: string
    var pending: string
    var component: string
    const states: seq<string>
    var registered: set<string>
    var awaiting: set<string>
    var subscribers: seq<string>
    var ready: bool
    var confirmed: bool
    ghost var calls: seq<Call>

    ghost function View(): Em
      reads this
    {
      Em(active, allowed, current, pending, component, registered, awaiting, subscribers,
         ready, confirmed, calls)
    }

    constructor (c: Config)
      ensures View() == NewManager(c) && states == c.states
    {
      active, allowed, current, pending, component := {}, c.supported, "", "", "";
      states, registered, awaiting, subscribers := c.states, {}, {}, [];
      ready, confirmed, calls := false, false, [];
      new;
      FilterStates();
      assert allowed == Filtered(c);
    }

    // Erases, entry by entry, what the machine manifest does not name.
    method FilterStates()
      modifies this`allowed
      ensures allowed == map st | st in old(allowed) && st in states :: old(allowed)[st]
    {
      var rest := allowed.Keys;
      while rest != {}
        invariant rest <= old(allowed).Keys
        invariant allowed.Keys == rest + set st | st in old(allowed) && st !in rest && st in states
        invariant forall st :: st in allowed ==> allowed[st] == old(allowed)[st]
        decreases rest
      {
        var st :| st in rest;
        if st !in states {
          allowed := allowed - {st};
        }
        rest := rest - {st};
      }
    }

    method ReportApplicationState(app: string, st: AppState)
      modifies this`active
      ensures View() == ReportState(old(View()), app, st)
    {
      match st
      case ShuttingDown => active := active - {app};
      case Running => active := active + {app};
      case _ =>
    }

    method RegisterComponent(component: string, mode: UpdateMode)
      modifies this`registered, this`subscribers
      ensures View() == Protocol.RegisterComponent(old(View()), component, mode)
    {
      registered := registered + {component};
      if mode.Event? {
        subscribers := subscribers + [component];
      }
    }

    method GetComponentState(component: string) returns (state: string, result: ReturnType)
      ensures (state, result) == ComponentReply(View(), component)
    {
      if component in registered {
        state, result := this.component, KSuccess;
      } else {
        state, result := "", KGeneralError;
      }
    }

    method ConfirmComponentState(component: string, status: ReturnType)
      modifies this`awaiting, this`confirmed
      ensures View() == Protocol.ConfirmState(old(View()), component, status)
    {
      if awaiting == {} {
        confirmed := true;
        return;
      }
      if status == KGeneralError || status == KInvalid {
        return;
      }
      awaiting := awaiting - {component};
      confirmed := awaiting == {};
    }

    // erase(remove_if(...)) on the subscriber list.
    method EraseSubscriber(process: string)
      modifies this`subscribers
      ensures subscribers == Without(old(subscribers), {process})
    {
      var kept: seq<string> := [];
      for i := 0 to |subscribers|
        invariant subscribers == old(subscribers)
        invariant kept == Without(subscribers[..i], {process})
      {
        WithoutAppend(subscribers[..i], [subscribers[i]], {process});
        assert subscribers[..i + 1] == subscribers[..i] + [subscribers[i]];
        if subscribers[i] != process {
          kept := kept + [subscribers[i]];
        }
      }
      assert subscribers[..|subscribers|] == subscribers;
      subscribers := kept;
    }

    // The worker got from s to w, this object being the manager, in k steps with these calls served.
    ghost predicate Reached(c: Config, s: State, w: Worker, env: seq<seq<Event>>, k: nat)
      reads this
    {
      forall t :: t == s.(em := View(), worker := w) ==> Leads(c, s, t, Served(env, k))
    }

    // The event loop serves the calls that come in before the worker's step k.
    method ServeBatch(ghost c: Config, ghost s: State, ghost w: Worker, env: seq<seq<Event>>, k: nat)
      requires Schedule(env) && Reached(c, s, w, env, k)
      modifies this`active, this`registered, this`subscribers, this`awaiting, this`confirmed
      ensures View() == CalledAll(old(View()), Batch(env, k))
      ensures Reached(c, s, w, env, k + 1)
    {
      var batch := Batch(env, k);
      ghost var before := Served(env, k);
      assert before + batch[..0] == before;
      for i := 0 to |batch|
        invariant View() == CalledAll(old(View()), batch[..i])
        invariant Leads(c, s, s.(em := View(), worker := w), before + batch[..i])
      {
        ghost var t := s.(em := View(), worker := w);
        CallIsStep(c, t, batch[i]);
        LeadsOn(c, s, t, before + batch[..i], batch[i]);
        assert before + batch[..i] + [batch[i]] == before + batch[..i + 1];
        assert batch[..i + 1][..i] == batch[..i];
        Serve(batch[i]);
      }
      assert batch[..|batch|] == batch;
    }

    // Kills, one by one, the processes active at its start that the pending state does not allow.
    method KillProcessesForState(ghost c: Config, ghost s: State, env: seq<seq<Event>>, from: nat)
      returns (k: nat, ghost order: seq<string>)
      requires Schedule(env) && Reached(c, s, PlanningKills, env, from)
      modifies this`active, this`registered, this`subscribers, this`awaiting, this`confirmed, this`calls
      ensures k >= from && Reached(c, s, PlanningStarts, env, k)
      ensures P.Lists(order, CalledAll(old(View()), Batch(env, from)).active - Lookup(allowed, pending))
      ensures calls == old(calls) + P.KillCalls(order)
    {
      var plan := PlanKills(c, s, env, from);
      var rest := plan;
      k, order := from + 1, [];
      assert Range(order) == {};
      while rest != {}
        invariant rest <= plan && P.Lists(order, plan - rest) && k >= from
        invariant Reached(c, s, Killing(rest), env, k)
        invariant calls == old(calls) + P.KillCalls(order)
        decreases rest
      {
        var process :| process in rest;
        P.ListsExtends(order, plan - rest, process);
        assert plan - (rest - {process}) == (plan - rest) + {process};
        assert P.KillCalls(order + [process]) == P.KillCalls(order) + [Kill(process)];
        KillOneProcess(c, s, rest, process, env, k);
        k, rest := k + 1, rest - {process};
        order := order + [process];
      }
      assert plan - rest == plan;
      ServeBatch(c, s, Killing({}), env, k);
      k := k + 1;
      LeadsWork(c, s, s.(em := View(), worker := Killing({})), Served(env, k), KillsDone);
    }

    method PlanKills(ghost c: Config, ghost s: State, env: seq<seq<Event>>, k: nat) returns (plan: set<string>)
      requires Schedule(env) && Reached(c, s, PlanningKills, env, k)
      modifies this`active, this`registered, this`subscribers, this`awaiting, this`confirmed
      ensures Reached(c, s, Killing(plan), env, k + 1)
      ensures plan == CalledAll(old(View()), Batch(env, k)).active - Lookup(allowed, pending)
    {
      ServeBatch(c, s, PlanningKills, env, k);
      LeadsWork(c, s, s.(em := View(), worker := PlanningKills), Served(env, k + 1), SnapshotKills);
      plan := active - Lookup(allowed, pending);
    }

    method KillOneProcess(ghost c: Config, ghost s: State, rest: set<string>, process: string,
                          env: seq<seq<Event>>, k: nat)
      requires Schedule(env) && Reached(c, s, Killing(rest), env, k) && process in rest
      modifies this`active, this`registered, this`subscribers, this`awaiting, this`confirmed, this`calls
      ensures Reached(c, s, Killing(rest - {process}), env, k + 1)
      ensures calls == old(calls) + [Kill(process)]
    {
      ServeBatch(c, s, Killing(rest), env, k);
      LeadsWork(c, s, s.(em := View(), worker := Killing(rest)), Served(env, k + 1), KillOne(process));
      KillAndErase(process);
    }

    method KillAndErase(process: string)
      modifies this`subscribers, this`calls
      ensures View() == KillProcess(old(View()), process)
    {
      calls := calls + [Kill(process)];
      EraseSubscriber(process);
    }

    // Starts, one by one, the allowed processes not active at its start; under Starting-up the
    // answer is whether one of six rounds (alive holds their findings) sees a live msm process.
    method StartApplicationsForState(ghost c: Config, ghost s: State, alive: seq<set<string>>,
                                     env: seq<seq<Event>>, from: nat)
      returns (ok: bool, k: nat, ghost order: seq<string>, ghost rounds: nat)
      requires Schedule(env) && Reached(c, s, PlanningStarts, env, from) && |alive| == STARTUP_POLL_ROUNDS
      modifies this`active, this`registered, this`subscribers, this`awaiting, this`confirmed, this`calls
      ensures k >= from && Reached(c, s, if ok then Switching else Idle, env, k)
      ensures calls == old(calls) + P.StartCalls(order)
      ensures var plan := Lookup(allowed, pending) - CalledAll(old(View()), Batch(env, from)).active;
              && P.Lists(order, plan)
              && if pending != MACHINE_STATE_STARTUP then ok
                 else
                   && Polled(plan, alive, ok, rounds)
                   && (ok <==> exists i, p :: 0 <= i < 6 && p in plan && p in alive[i]
                                              && exists a, b: string :: p == a + "msm" + b)
    {
      var plan := PlanStarts(c, s, env, from);
      k, order := StartAll(c, s, plan, env, from + 1);
      ghost var w := Starting(plan, {}, 0, false);
      ok, rounds := true, 0;
      if pending == MACHINE_STATE_STARTUP {
        ok, k, rounds := PollForMsm(c, s, plan, alive, env, k);
        PolledMeans(plan, alive, ok, rounds);
        w := Starting(plan, {}, if ok then rounds + 1 else rounds, ok);
      }
      EndStarts(c, s, w, ok, env, k);
      k := k + 1;
    }

    method PlanStarts(ghost c: Config, ghost s: State, env: seq<seq<Event>>, k: nat) returns (plan: set<string>)
      requires Schedule(env) && Reached(c, s, PlanningStarts, env, k)
      modifies this`active, this`registered, this`subscribers, this`awaiting, this`confirmed
      ensures Reached(c, s, Starting(plan, plan, 0, false), env, k + 1)
      ensures plan == Lookup(allowed, pending) - CalledAll(old(View()), Batch(env, k)).active
    {
      ServeBatch(c, s, PlanningStarts, env, k);
      LeadsWork(c, s, s.(em := View(), worker := PlanningStarts), Served(env, k + 1), SnapshotStarts);
      plan := Lookup(allowed, pending) - active;
    }

    method EndStarts(ghost c: Config, ghost s: State, ghost w: Worker, ghost ok: bool, env: seq<seq<Event>>, k: nat)
      requires Schedule(env) && Reached(c, s, w, env, k) && w.Starting? && w.toStart == {}
      requires if pending == MACHINE_STATE_STARTUP then w.msmAlive == ok && (ok || w.rounds == STARTUP_POLL_ROUNDS)
               else ok
      modifies this`active, this`registered, this`subscribers, this`awaiting, this`confirmed
      ensures Reached(c, s, if ok then Switching else Idle, env, k + 1)
    {
      ServeBatch(c, s, w, env, k);
      LeadsWork(c, s, s.(em := View(), worker := w), Served(env, k + 1), StartsDone);
    }

    method StartAll(ghost c: Config, ghost s: State, plan: set<string>, env: seq<seq<Event>>, from: nat)
      returns (k: nat, ghost order: seq<string>)
      requires Schedule(env) && Reached(c, s, Starting(plan, plan, 0, false), env, from)
      modifies this`active, this`registered, this`subscribers, this`awaiting, this`confirmed, this`calls
      ensures k >= from && Reached(c, s, Starting(plan, {}, 0, false), env, k)
      ensures P.Lists(order, plan) && calls == old(calls) + P.StartCalls(order)
    {
      var rest := plan;
      k, order := from, [];
      while rest != {}
        invariant rest <= plan && P.Lists(order, plan - rest) && k >= from
        invariant Reached(c, s, Starting(plan, rest, 0, false), env, k)
        invariant calls == old(calls) + P.StartCalls(order)
        decreases rest
      {
        var process :| process in rest;
        P.ListsExtends(order, plan - rest, process);
        assert plan - (rest - {process}) == (plan - rest) + {process};
        assert P.StartCalls(order + [process]) == P.StartCalls(order) + [Start(process)];
        StartOneProcess(c, s, plan, rest, process, env, k);
        k, rest := k + 1, rest - {process};
        order := order + [process];
      }
      assert plan - rest == plan;
    }

    method StartOneProcess(ghost c: Config, ghost s: State, ghost plan: set<string>, rest: set<string>,
                           process: string, env: seq<seq<Event>>, k: nat)
      requires Schedule(env) && Reached(c, s, Starting(plan, rest, 0, false), env, k) && process in rest
      modifies this`active, this`registered, this`subscribers, this`awaiting, this`confirmed, this`calls
      ensures Reached(c, s, Starting(plan, rest - {process}, 0, false), env, k + 1)
      ensures calls == old(calls) + [Start(process)]
    {
      ghost var w := Starting(plan, rest, 0, false);
      ServeBatch(c, s, w, env, k);
      LeadsWork(c, s, s.(em := View(), worker := w), Served(env, k + 1), StartOne(process));
      calls := calls + [Start(process)];
    }

    method PollForMsm(ghost c: Config, ghost s: State, plan: set<string>, alive: seq<set<string>>,
                      env: seq<seq<Event>>, from: nat)
      returns (ok: bool, k: nat, ghost rounds: nat)
      requires Schedule(env) && Reached(c, s, Starting(plan, {}, 0, false), env, from)
      requires |alive| == STARTUP_POLL_ROUNDS && pending == MACHINE_STATE_STARTUP
      modifies this`active, this`registered, this`subscribers, this`awaiting, this`confirmed
      ensures k >= from && Polled(plan, alive, ok, rounds)
      ensures Reached(c, s, Starting(plan, {}, if ok then rounds + 1 else rounds, ok), env, k)
    {
      k := from;
      for i := 0 to STARTUP_POLL_ROUNDS
        invariant NoneSeen(plan, alive, i) && k >= from
        invariant Reached(c, s, Starting(plan, {}, i, false), env, k)
      {
        ok := PollOnce(c, s, plan, alive[i], i, env, k);
        k := k + 1;
        if ok {
          return true, k, i;
        }
      }
      return false, k, STARTUP_POLL_ROUNDS;
    }

    method PollOnce(ghost c: Config, ghost s: State, plan: set<string>, alive: set<string>, ghost i: nat,
                    env: seq<seq<Event>>, k: nat)
      returns (seen: bool)
      requires Schedule(env) && Reached(c, s, Starting(plan, {}, i, false), env, k)
      requires i < STARTUP_POLL_ROUNDS && pending == MACHINE_STATE_STARTUP
      modifies this`active, this`registered, this`subscribers, this`awaiting, this`confirmed
      ensures seen == SeesMsm(plan, alive)
      ensures Reached(c, s, Starting(plan, {}, i + 1, seen), env, k + 1)
    {
      ghost var w := Starting(plan, {}, i, false);
      ServeBatch(c, s, w, env, k);
      LeadsWork(c, s, s.(em := View(), worker := w), Served(env, k + 1), PollRound(alive));
      seen := SeesMsm(plan, alive);
    }

    // The component change, and the filling of the pending set with the notices to subscribers.
    method ChangeComponentsState(ghost c: Config, ghost s: State, env: seq<seq<Event>>, k: nat)
      requires Schedule(env) && Reached(c, s, Switching, env, k)
      modifies this`active, this`registered, this`subscribers, this`awaiting, this`confirmed, this`calls, this`component
      ensures Reached(c, s, FirstTest, env, k + 2)
      ensures var em := CalledAll(old(View()), Batch(env, k)).(component := ComponentStateFor(pending));
              View() == NotifyComponents(CalledAll(em, Batch(env, k + 1)))
      ensures |calls| == old(|calls|) + |subscribers| && old(calls) <= calls
      ensures forall i :: 0 <= i < |subscribers| ==>
                calls[old(|calls|) + i]
                  == Notify(subscribers[i], if pending == MACHINE_STATE_SUSPEND then COMPONENT_STATE_OFF
                                            else COMPONENT_STATE_ON)
    {
      SwitchComponentState(c, s, env, k);
      ServeBatch(c, s, Filling, env, k + 1);
      LeadsWork(c, s, s.(em := View(), worker := Filling), Served(env, k + 2), FillPending);
      NotifyRegistered();
    }

    method SwitchComponentState(ghost c: Config, ghost s: State, env: seq<seq<Event>>, k: nat)
      requires Schedule(env) && Reached(c, s, Switching, env, k)
      modifies this`active, this`registered, this`subscribers, this`awaiting, this`confirmed, this`component
      ensures Reached(c, s, Filling, env, k + 1)
      ensures View() == CalledAll(old(View()), Batch(env, k)).(component := ComponentStateFor(pending))
    {
      ServeBatch(c, s, Switching, env, k);
      LeadsWork(c, s, s.(em := View(), worker := Switching), Served(env, k + 1), SwitchComponents);
      if pending == MACHINE_STATE_SUSPEND {
        component := COMPONENT_STATE_OFF;
      } else {
        component := COMPONENT_STATE_ON;
      }
    }

    method NotifyRegistered()
      modifies this`awaiting, this`calls
      ensures View() == NotifyComponents(old(View()))
    {
      var rest := registered;
      while rest != {}
        invariant rest <= registered
        invariant awaiting == old(awaiting) + (registered - rest)
        invariant calls == old(calls)
        decreases rest
      {
        var k :| k in rest;
        awaiting := awaiting + {k};
        rest := rest - {k};
      }
      assert registered - rest == registered;
      assert calls + Notices([], component) == calls && subscribers[..0] == [];
      for i := 0 to |subscribers|
        invariant calls == old(calls) + Notices(subscribers[..i], component)
      {
        assert Notices(subscribers[..i + 1], component)
            == Notices(subscribers[..i], component) + [Notify(subscribers[i], component)];
        assert old(calls) + Notices(subscribers[..i], component) + [Notify(subscribers[i], component)]
            == old(calls) + Notices(subscribers[..i + 1], component);
        calls := calls + [Notify(subscribers[i], component)];
      }
      assert subscribers[..|subscribers|] == subscribers;
    }

    method IsConfirmAvailable() returns (result: bool)
      modifies this`allowed, this`ready
      ensures View() == SampleActiveSet(old(View()))
      ensures result == ready == (active == Lookup(old(allowed), pending))
    {
      if pending !in allowed {
        allowed := allowed[pending := {}];
      }
      result := active == allowed[pending];
      ready := result;
    }

    // One call served by the event loop.
    method Serve(e: Event)
      requires ManagerCall(e)
      modifies this`active, this`registered, this`subscribers, this`awaiting, this`confirmed
      ensures View() == Called(old(View()), e)
    {
      match e
      case Report(app, st) => ReportApplicationState(app, st);
      case Register(k, mode) => RegisterComponent(k, mode);
      case Fetch(k) => var _, _ := GetComponentState(k);
      case ConfirmComponent(k, _, status) => ConfirmComponentState(k, status);
    }

    // setMachineState as the worker runs it, calls being served before any of its steps. None means
    // that all of them are served, and that the wait goes on and its further turns change nothing.
    method SetMachineState(ghost c: Config, ghost s: State, state: string,
                           alive: seq<set<string>>, env: seq<seq<Event>>)
      returns (outcome: Option<StateError>, k: nat, ghost w: Worker)
      requires s.em == View() && s.worker == Resetting(state) && states == c.states
      requires |alive| == STARTUP_POLL_ROUNDS && Schedule(env)
      modifies this
      ensures Reached(c, s, w, env, k)
      ensures match outcome
              case None =>
                && k >= |env| && w.WaitHead? && Turn(View()) == View() && !ready
                && !((pending == MACHINE_STATE_SUSPEND || pending == MACHINE_STATE_RUNNING) && confirmed)
              case Some(Success) => w.Idle? && current == pending == state && state in states
                                    && state != old(current)
              case Some(InvalidState) => w.Idle? && k == 2 && (state !in states || state == old(current))
                                         && View() == Refused(old(View()), env)
              case Some(InvalidRequest) => w.Idle? && state == MACHINE_STATE_STARTUP
                                           && current == old(current) && component == old(component)
              case Some(Timeout) => false
    {
      var accepted := Accept(c, s, state, env);
      if !accepted {
        return Some(InvalidState), 2, Idle;
      }
      var ok;
      ok, k := ChangeProcesses(c, s, alive, env, 2);
      if !ok {
        return Some(InvalidRequest), k, Idle;
      }
      k := Await(c, s, env, k);
      if !ready && !(ComponentsMayRelease(pending) && confirmed) {
        return None, k, WaitHead;
      }
      Finish(c, s, env, k);
      return Some(Success), k + 2, Idle;
    }

    // The flag reset and the validation of the request.
    method Accept(ghost c: Config, ghost s: State, state: string, env: seq<seq<Event>>) returns (accepted: bool)
      requires s.em == View() && s.worker == Resetting(state) && states == c.states && Schedule(env)
      modifies this`active, this`registered, this`subscribers, this`awaiting, this`confirmed, this`ready, this`pending
      ensures accepted <==> state in states && state != current
      ensures View() == if accepted then Refused(old(View()), env).(pending := state) else Refused(old(View()), env)
      ensures Reached(c, s, if accepted then PlanningKills else Idle, env, 2)
    {
      ResetBothFlags(c, s, state, env);
      ServeBatch(c, s, Checking(state), env, 1);
      LeadsWork(c, s, s.(em := View(), worker := Checking(state)), Served(env, 2), CheckRequest);
      if state !in states {
        return false;
      } else if state == current {
        return false;
      }
      pending := state;
      return true;
    }

    method ResetBothFlags(ghost c: Config, ghost s: State, state: string, env: seq<seq<Event>>)
      requires s.em == View() && s.worker == Resetting(state) && Schedule(env)
      modifies this`active, this`registered, this`subscribers, this`awaiting, this`confirmed, this`ready
      ensures View() == AfterReset(CalledAll(old(View()), Batch(env, 0)))
      ensures Reached(c, s, Checking(state), env, 1)
    {
      LeadsNowhere(c, s);
      assert s.(em := View(), worker := s.worker) == s;
      ServeBatch(c, s, s.worker, env, 0);
      LeadsWork(c, s, s.(em := View()), Served(env, 1), ResetFlags);
      ready, confirmed := false, false;
    }

    // The killing and starting part of setMachineState.
    method ChangeProcesses(ghost c: Config, ghost s: State, alive: seq<set<string>>, env: seq<seq<Event>>, from: nat)
      returns (ok: bool, k: nat)
      requires Schedule(env) && Reached(c, s, PlanningKills, env, from) && |alive| == STARTUP_POLL_ROUNDS
      modifies this`active, this`registered, this`subscribers, this`awaiting, this`confirmed, this`calls
      ensures k >= from && Reached(c, s, if ok then Switching else Idle, env, k)
      ensures pending != MACHINE_STATE_STARTUP ==> ok
    {
      ghost var kills, starts, rounds;
      k, kills := KillProcessesForState(c, s, env, from);
      ok, k, starts, rounds := StartApplicationsForState(c, s, alive, env, k);
    }

    // From the component change to the end of the wait.
    method Await(ghost c: Config, ghost s: State, env: seq<seq<Event>>, from: nat) returns (k: nat)
      requires Schedule(env) && Reached(c, s, Switching, env, from)
      modifies this`active, this`registered, this`subscribers, this`awaiting, this`confirmed, this`calls, this`component, this`allowed, this`ready
      ensures Reached(c, s, WaitHead, env, k)
      ensures !WaitOver(View()) ==> k >= |env| && Turn(View()) == View()
    {
      ChangeComponentsState(c, s, env, from);
      TestBeforeWait(c, s, env, from + 2);
      k := WaitForConfirmations(c, s, env, from + 4);
    }

    // The test before the wait, and the calls before the wait's own first test.
    method TestBeforeWait(ghost c: Config, ghost s: State, env: seq<seq<Event>>, from: nat)
      requires Schedule(env) && Reached(c, s, FirstTest, env, from)
      modifies this`active, this`registered, this`subscribers, this`awaiting, this`confirmed,
               this`allowed, this`ready
      ensures Reached(c, s, WaitHead, env, from + 2)
    {
      ServeBatch(c, s, FirstTest, env, from);
      LeadsWork(c, s, s.(em := View(), worker := FirstTest), Served(env, from + 1), TestFirst);
      var _ := IsConfirmAvailable();
      ServeBatch(c, s, WaitHead, env, from + 1);
    }

    // The wait loops. Under Suspend and Running either flag ends the wait, otherwise only ready.
    method WaitForConfirmations(ghost c: Config, ghost s: State, env: seq<seq<Event>>, from: nat)
      returns (k: nat)
      requires Schedule(env) && Reached(c, s, WaitHead, env, from)
      modifies this`active, this`registered, this`subscribers, this`awaiting, this`confirmed,
               this`allowed, this`ready
      ensures k >= from && Reached(c, s, WaitHead, env, k)
      ensures || ready
              || ((pending == MACHINE_STATE_SUSPEND || pending == MACHINE_STATE_RUNNING) && confirmed)
              || (k >= |env| && Turn(View()) == View())
    {
      k := from;
      var settled := false;
      while !settled && !ready && !(ComponentsMayRelease(pending) && confirmed)
        invariant k >= from && Reached(c, s, WaitHead, env, k)
        invariant settled && !WaitOver(View()) ==> k >= |env| && Turn(View()) == View()
        decreases if k < |env| then |env| - k else 0, !settled
      {
        settled := k >= |env|;
        k := OneTurn(c, s, env, k);
      }
    }

    // One turn of a wait loop, and the calls before its next test.
    method OneTurn(ghost c: Config, ghost s: State, env: seq<seq<Event>>, from: nat) returns (k: nat)
      requires Schedule(env) && Reached(c, s, WaitHead, env, from) && !WaitOver(View())
      modifies this`active, this`registered, this`subscribers, this`awaiting, this`confirmed, this`allowed, this`ready
      ensures k > from && Reached(c, s, WaitHead, env, k)
      ensures from >= |env| ==> View() == Turn(old(View()))
    {
      SampleProcesses(c, s, env, from);
      k := from + 1;
      if ComponentsMayRelease(pending) {
        SampleComponents(c, s, env, k);
        k := k + 1;
      }
      ServeBatch(c, s, WaitHead, env, k);
      k := k + 1;
    }

    method SampleProcesses(ghost c: Config, ghost s: State, env: seq<seq<Event>>, k: nat)
      requires Schedule(env) && Reached(c, s, WaitHead, env, k) && !WaitOver(View())
      modifies this`active, this`registered, this`subscribers, this`awaiting, this`confirmed, this`allowed, this`ready
      ensures Reached(c, s, if ComponentsMayRelease(pending) then WaitConfirms else WaitHead, env, k + 1)
      ensures View() == SampleActiveSet(CalledAll(old(View()), Batch(env, k)))
    {
      LeadsWork(c, s, s.(em := View(), worker := WaitHead), Served(env, k), LoopHead);
      ServeBatch(c, s, WaitActive, env, k);
      LeadsWork(c, s, s.(em := View(), worker := WaitActive), Served(env, k + 1), SampleActive);
      var _ := IsConfirmAvailable();
    }

    method SampleComponents(ghost c: Config, ghost s: State, env: seq<seq<Event>>, k: nat)
      requires Schedule(env) && Reached(c, s, WaitConfirms, env, k)
      modifies this`active, this`registered, this`subscribers, this`awaiting, this`confirmed
      ensures Reached(c, s, WaitHead, env, k + 1)
      ensures var em := CalledAll(old(View()), Batch(env, k)); View() == em.(confirmed := em.awaiting == {})
    {
      ServeBatch(c, s, WaitConfirms, env, k);
      LeadsWork(c, s, s.(em := View(), worker := WaitConfirms), Served(env, k + 1), SampleConfirms);
      confirmed := awaiting == {};
    }

    // The end of the wait: the confirm and the commit.
    method Finish(ghost c: Config, ghost s: State, env: seq<seq<Event>>, k: nat)
      requires Schedule(env) && Reached(c, s, WaitHead, env, k) && WaitOver(View())
      modifies this`active, this`registered, this`subscribers, this`awaiting, this`confirmed, this`calls, this`current
      ensures Reached(c, s, Idle, env, k + 2)
      ensures current == pending && calls == old(calls) + [ConfirmTransition(Success)]
    {
      ConfirmState(c, s, env, k);
      ServeBatch(c, s, Committing, env, k + 1);
      LeadsWork(c, s, s.(em := View(), worker := Committing), Served(env, k + 2), Commit);
      current := pending;
    }

    method ConfirmState(ghost c: Config, ghost s: State, env: seq<seq<Event>>, k: nat)
      requires Schedule(env) && Reached(c, s, WaitHead, env, k) && WaitOver(View())
      modifies this`active, this`registered, this`subscribers, this`awaiting, this`confirmed, this`calls
      ensures Reached(c, s, Committing, env, k + 1)
      ensures calls == old(calls) + [ConfirmTransition(Success)]
    {
      LeadsWork(c, s, s.(em := View(), worker := WaitHead), Served(env, k), LoopHead);
      ServeBatch(c, s, Confirming, env, k);
      LeadsWork(c, s, s.(em := View(), worker := Confirming), Served(env, k + 1), SendConfirm);
      calls := calls + [ConfirmTransition(Success)];
    }
  }

  class MsmHandler {
    var msmPid: int

    constructor ()
      ensures msmPid == -1
    {
      msmPid := -1;
    }

    method RegisterMsm(pid: int, name: string) returns (ok: bool)
      modifies this
      ensures ok == ((old(msmPid) == -1 || old(msmPid) == pid) && name != "")
      ensures msmPid == if ok then pid else old(msmPid)
    {
      if (msmPid == -1 || msmPid == pid) && name != "" {
        msmPid := pid;
        return true;
      }
      return false;
    }

    predicate CheckMsm(pid: int)
      reads this
    {
      pid == msmPid
    }
  }

  class ThreadQueue {
    var methods: seq<string>

    constructor ()
      ensures methods == []
    {
      methods := [];
    }

    method AddMethod(state: string)
      modifies this
      ensures methods == old(methods) + [state]
    {
      methods := methods + [state];
    }

    // The worker blocks while the queue is empty, so it only gets here with a request.
    method GetExecutor() returns (state: string)
      requires methods != []
      modifies this
      ensures [state] + methods == old(methods)
    {
      state := methods[0];
      methods := methods[1..];
    }
  }

  class ExecutionManagerServer {
    const em: ExecutionManager
    const handler: MsmHandler
    const queue: ThreadQueue

    ghost predicate Valid()
      reads this
    {
      (em as object) != handler && (em as object) != queue && (handler as object) != queue
    }

    ghost function View(w: Worker): State
      reads this, em, handler, queue
    {
      State(em.View(), queue.methods, handler.msmPid, w)
    }

    // A server starts in the initial state of the step system.
    constructor (c: Config)
      ensures Valid() && fresh(em) && fresh(handler) && fresh(queue)
      ensures View(Idle) == Init(c) && em.states == c.states
    {
      em := new ExecutionManager(c);
      handler := new MsmHandler();
      var q := new ThreadQueue();
      q.AddMethod(MACHINE_STATE_STARTUP);
      queue := q;
    }

    method Register(pid: int, name: string) returns (result: StateError)
      requires Valid()
      modifies handler
      ensures forall c: Config, w: Worker :: View(w) == Next(c, old(View(w)), RegisterMsm(pid, name))
      ensures result == if old(handler.msmPid) in {-1, pid} && name != "" then Success else InvalidRequest
    {
      var ok := handler.RegisterMsm(pid, name);
      result := if ok then Success else InvalidRequest;
    }

    method SetMachineState(pid: int, state: string)
      requires Valid()
      modifies queue
      ensures forall c: Config, w: Worker :: View(w) == Next(c, old(View(w)), Request(pid, state))
    {
      if !handler.CheckMsm(pid) {
        return;
      }
      queue.AddMethod(state);
    }

    // One turn of the worker thread: take the oldest request and run it to the end of its wait.
    method RunOne(ghost c: Config, alive: seq<set<string>>, env: seq<seq<Event>>)
      returns (outcome: Option<StateError>, k: nat, ghost w: Worker)
      requires Valid() && queue.methods != [] && em.states == c.states
      requires |alive| == STARTUP_POLL_ROUNDS && Schedule(env)
      modifies em, queue
      ensures Leads(c, old(View(Idle)), View(w), Served(env, k))
      ensures if outcome.Some? then w.Idle? else w.WaitHead? && k >= |env|
      ensures outcome == Some(Success) ==> em.current == old(queue.methods[0])
    {
      ghost var s := View(Idle);
      LeadsNowhere(c, s);
      LeadsWork(c, s, s, [], Pop);
      ghost var s0 := Next(c, s, Pop);
      var state := queue.GetExecutor();
      outcome, k, w := em.SetMachineState(c, s0, state, alive, env);
      LeadsTo(c, s, s0, View(w), [], Served(env, k));
      assert [] + Served(env, k) == Served(env, k);
    }
  }
}
