// Which processes a transition kills and starts, and which components it notifies.
module Plans {
  import opened Types
  import opened Protocol
  import opened Invariants

  // Processes killed since the last kill snapshot, in order.
  function KillsSince(es: seq<Event>): seq<string> {
    if es == [] then []
    else
      var e := es[|es| - 1];
      if e.SnapshotKills? then []
      else if e.KillOne? then KillsSince(es[..|es| - 1]) + [e.process]
      else KillsSince(es[..|es| - 1])
  }

  // Processes started since the last start snapshot, in order.
  function StartsSince(es: seq<Event>): seq<string> {
    if es == [] then []
    else
      var e := es[|es| - 1];
      if e.SnapshotStarts? then []
      else if e.StartOne? then StartsSince(es[..|es| - 1]) + [e.process]
      else StartsSince(es[..|es| - 1])
  }

  // s lists every element of plan exactly once and nothing else.
  ghost predicate Lists(s: seq<string>, plan: set<string>) {
    Distinct(s) && Range(s) == plan
  }

  lemma ListsExtends(s: seq<string>, plan: set<string>, p: string)
    requires Lists(s, plan) && p !in plan
    ensures Lists(s + [p], plan + {p})
  {
    assert forall i :: 0 <= i < |s| ==> s[i] in Range(s);
    assert (s + [p])[|s|] == p;
    assert forall x :: x in s ==> x in s + [p];
  }

  // Snapshot k of the transition in flight: no other snapshot of its kind follows it.
  ghost predicate KillPlanAt(es: seq<Event>, k: nat) {
    k < |es| && es[k].SnapshotKills? && forall i :: k < i < |es| ==> !es[i].SnapshotKills?
  }

  ghost predicate StartPlanAt(es: seq<Event>, k: nat) {
    k < |es| && es[k].SnapshotStarts? && forall i :: k < i < |es| ==> !es[i].SnapshotStarts?
  }

  // While killing, what was killed and what is left make up the plan taken at the snapshot.
  ghost predicate KillProgress(c: Config, es: seq<Event>, k: nat)
    requires Run(c, es)
  {
    && KillPlanAt(es, k)
    && var s, plan := Final(c, es), At(c, es, k).em.active - Allowed(c, At(c, es, k).em.pending);
    && At(c, es, k).em.pending == s.em.pending
    && (s.worker.Killing? ==> s.worker.toKill <= plan && Lists(KillsSince(es), plan - s.worker.toKill))
    && (!s.worker.Killing? ==> Lists(KillsSince(es), plan))
  }

  ghost predicate StartProgress(c: Config, es: seq<Event>, k: nat)
    requires Run(c, es)
  {
    && StartPlanAt(es, k)
    && var s, plan := Final(c, es), Allowed(c, At(c, es, k).em.pending) - At(c, es, k).em.active;
    && At(c, es, k).em.pending == s.em.pending
    && (s.worker.Starting? ==> s.worker.toStart <= plan && Lists(StartsSince(es), plan - s.worker.toStart))
    && (!s.worker.Starting? ==> Lists(StartsSince(es), plan))
  }

  predicate KillsPlanned(w: Worker) { InTransition(w) && !w.PlanningKills? }

  predicate StartsPlanned(w: Worker) { w.Starting? || w.Switching? || Switched(w) }

  // How a step other than the snapshot moves a worker that has its kill plan.
  lemma KillingMoves(c: Config, s: State, e: Event)
    requires Enabled(s, e) && KillsPlanned(Next(c, s, e).worker) && !e.SnapshotKills?
    ensures var s' := Next(c, s, e);
            && KillsPlanned(s.worker) && s'.em.pending == s.em.pending
            && (e.KillOne? ==>
                  && s.worker.Killing? && s'.worker.Killing? && e.process in s.worker.toKill
                  && s'.worker.toKill == s.worker.toKill - {e.process})
            && (!e.KillOne? && s'.worker.Killing? ==>
                  s.worker.Killing? && s'.worker.toKill == s.worker.toKill)
            && (!s'.worker.Killing? && s.worker.Killing? ==> s.worker.toKill == {} && !e.KillOne?)
  {
  }

  lemma KillStep(c: Config, es: seq<Event>, k: nat)
    requires Run(c, es) && es != [] && KillsPlanned(Final(c, es).worker) && !es[|es| - 1].SnapshotKills?
    requires KillProgress(c, es[..|es| - 1], k)
    ensures KillProgress(c, es, k)
  {
    var n := |es| - 1;
    var p := es[..n];
    PrefixAt(c, es, n, k);
    var plan := At(c, es, k).em.active - Allowed(c, At(c, es, k).em.pending);
    KillStepOn(c, Final(c, p), es[n], plan, KillsSince(p));
  }

  lemma KillStepOn(c: Config, s: State, e: Event, plan: set<string>, killed: seq<string>)
    requires Enabled(s, e) && KillsPlanned(Next(c, s, e).worker) && !e.SnapshotKills?
    requires s.worker.Killing? ==> s.worker.toKill <= plan && Lists(killed, plan - s.worker.toKill)
    requires !s.worker.Killing? ==> Lists(killed, plan)
    ensures var s' := Next(c, s, e);
            var killed' := if e.KillOne? then killed + [e.process] else killed;
            && (s'.worker.Killing? ==> s'.worker.toKill <= plan && Lists(killed', plan - s'.worker.toKill))
            && (!s'.worker.Killing? ==> Lists(killed', plan))
            && s'.em.pending == s.em.pending
  {
    KillingMoves(c, s, e);
    if e.KillOne? {
      ListsExtends(killed, plan - s.worker.toKill, e.process);
      assert plan - (s.worker.toKill - {e.process}) == (plan - s.worker.toKill) + {e.process};
    } else if s.worker.Killing? && s.worker.toKill == {} {
      assert plan - s.worker.toKill == plan;
    }
  }

  lemma {:induction false} KillsFollowPlan(c: Config, es: seq<Event>)
    requires Run(c, es) && KillsPlanned(Final(c, es).worker)
    ensures exists k: nat :: KillProgress(c, es, k)
  {
    var n := |es| - 1;
    var s, e := Final(c, es[..n]), es[n];
    PrefixAt(c, es, n, n);
    if e.SnapshotKills? {
      InvAt(c, es, n);
      assert Lookup(s.em.allowed, s.em.pending) == Allowed(c, s.em.pending);
      assert KillProgress(c, es, n);
    } else {
      KillsFollowPlan(c, es[..n]);
      var k: nat :| KillProgress(c, es[..n], k);
      KillStep(c, es, k);
    }
  }

  // How a step other than the snapshot moves a worker that has its start plan.
  lemma StartingMoves(c: Config, s: State, e: Event)
    requires Enabled(s, e) && StartsPlanned(Next(c, s, e).worker) && !e.SnapshotStarts?
    ensures var s' := Next(c, s, e);
            && StartsPlanned(s.worker) && s'.em.pending == s.em.pending
            && (e.StartOne? ==>
                  && s.worker.Starting? && s'.worker.Starting? && e.process in s.worker.toStart
                  && s'.worker.toStart == s.worker.toStart - {e.process})
            && (!e.StartOne? && s'.worker.Starting? ==>
                  s.worker.Starting? && s'.worker.toStart == s.worker.toStart)
            && (!s'.worker.Starting? && s.worker.Starting? ==> s.worker.toStart == {} && !e.StartOne?)
  {
  }

  lemma StartStep(c: Config, es: seq<Event>, k: nat)
    requires Run(c, es) && es != [] && StartsPlanned(Final(c, es).worker) && !es[|es| - 1].SnapshotStarts?
    requires StartProgress(c, es[..|es| - 1], k)
    ensures StartProgress(c, es, k)
  {
    var n := |es| - 1;
    var p := es[..n];
    PrefixAt(c, es, n, k);
    var plan := Allowed(c, At(c, es, k).em.pending) - At(c, es, k).em.active;
    StartStepOn(c, Final(c, p), es[n], plan, StartsSince(p));
  }

  lemma StartStepOn(c: Config, s: State, e: Event, plan: set<string>, started: seq<string>)
    requires Enabled(s, e) && StartsPlanned(Next(c, s, e).worker) && !e.SnapshotStarts?
    requires s.worker.Starting? ==> s.worker.toStart <= plan && Lists(started, plan - s.worker.toStart)
    requires !s.worker.Starting? ==> Lists(started, plan)
    ensures var s' := Next(c, s, e);
            var started' := if e.StartOne? then started + [e.process] else started;
            && (s'.worker.Starting? ==> s'.worker.toStart <= plan && Lists(started', plan - s'.worker.toStart))
            && (!s'.worker.Starting? ==> Lists(started', plan))
            && s'.em.pending == s.em.pending
  {
    StartingMoves(c, s, e);
    if e.StartOne? {
      ListsExtends(started, plan - s.worker.toStart, e.process);
      assert plan - (s.worker.toStart - {e.process}) == (plan - s.worker.toStart) + {e.process};
    } else if s.worker.Starting? && s.worker.toStart == {} {
      assert plan - s.worker.toStart == plan;
    }
  }

  lemma {:induction false} StartsFollowPlan(c: Config, es: seq<Event>)
    requires Run(c, es) && StartsPlanned(Final(c, es).worker)
    ensures exists k: nat :: StartProgress(c, es, k)
  {
    var n := |es| - 1;
    var s, e := Final(c, es[..n]), es[n];
    PrefixAt(c, es, n, n);
    if e.SnapshotStarts? {
      InvAt(c, es, n);
      assert Lookup(s.em.allowed, s.em.pending) == Allowed(c, s.em.pending);
      assert StartProgress(c, es, n);
    } else {
      StartsFollowPlan(c, es[..n]);
      var k: nat :| StartProgress(c, es[..n], k);
      StartStep(c, es, k);
    }
  }

  function KillCalls(killed: seq<string>): seq<Call> {
    seq(|killed|, i requires 0 <= i < |killed| => Kill(killed[i]))
  }

  function StartCalls(started: seq<string>): seq<Call> {
    seq(|started|, i requires 0 <= i < |started| => Start(started[i]))
  }

  // What was started for the transition in flight: nothing before its start snapshot.
  function StartedSoFar(w: Worker, es: seq<Event>): seq<string> {
    if StartsPlanned(w) then StartsSince(es) else []
  }

  // Until the component change the calls since the kill snapshot are the kills, then the starts.
  lemma {:induction false} CallsSoFar(c: Config, es: seq<Event>, k: nat)
    requires Run(c, es) && KillPlanAt(es, k)
    requires KillsPlanned(Final(c, es).worker) && !Switched(Final(c, es).worker)
    ensures Final(c, es).em.calls == At(c, es, k).em.calls + KillCalls(KillsSince(es))
                                     + StartCalls(StartedSoFar(Final(c, es).worker, es))
  {
    var n := |es| - 1;
    var s, e := Final(c, es[..n]), es[n];
    PrefixAt(c, es, n, n);
    CallStep(c, s, e);
    if e.SnapshotKills? {
      assert s.em.calls + [] + [] == s.em.calls;
    } else {
      var base := At(c, es, k).em.calls;
      PrefixAt(c, es, n, k);
      KillingMoves(c, s, e);
      PhaseMoves(c, s, e);
      CallsSoFar(c, es[..n], k);
      if e.KillOne? {
        assert KillCalls(KillsSince(es)) == KillCalls(KillsSince(es[..n])) + [Kill(e.process)];
      } else if e.StartOne? {
        assert StartCalls(StartsSince(es)) == StartCalls(StartsSince(es[..n])) + [Start(e.process)];
      }
    }
  }

  lemma PhaseMoves(c: Config, s: State, e: Event)
    requires Enabled(s, e) && KillsPlanned(Next(c, s, e).worker) && !Switched(Next(c, s, e).worker)
    requires !e.SnapshotKills?
    ensures !Switched(s.worker) && !e.FillPending? && !e.SendConfirm?
    ensures e.KillOne? ==> !StartsPlanned(s.worker) && !StartsPlanned(Next(c, s, e).worker)
    ensures e.StartOne? ==> StartsPlanned(s.worker)
    ensures !e.SnapshotStarts? ==> (StartsPlanned(Next(c, s, e).worker) <==> StartsPlanned(s.worker))
    ensures e.SnapshotStarts? ==> !StartsPlanned(s.worker)
  {
  }

  // after continues before with these kills, then these starts.
  ghost predicate CalledFor(before: seq<Call>, after: seq<Call>, killed: seq<string>, started: seq<string>) {
    && |after| == |before| + |killed| + |started| && before <= after
    && (forall n :: 0 <= n < |killed| ==> after[|before| + n] == Kill(killed[n]))
    && (forall n :: 0 <= n < |started| ==> after[|before| + |killed| + n] == Start(started[n]))
  }

  // When a transition comes to change the component state it has killed exactly what was active
  // but not allowed at the kill snapshot and started exactly what was allowed but not active at
  // the start snapshot, each process once and none of them both; and these kills, then these
  // starts, are all it called for since.
  lemma TransitionFollowsPlan(c: Config, es: seq<Event>, i: nat)
    requires Run(c, es) && i < |es| && es[i].SwitchComponents?
    ensures exists k: nat, m: nat ::
              && KillPlanAt(es[..i], k) && StartPlanAt(es[..i], m)
              && CalledFor(At(c, es, k).em.calls, At(c, es, i).em.calls, KillsSince(es[..i]), StartsSince(es[..i]))
              && var st := At(c, es, i).em.pending;
              && At(c, es, k).em.pending == st && At(c, es, m).em.pending == st
              && Lists(KillsSince(es[..i]), At(c, es, k).em.active - Allowed(c, st))
              && Lists(StartsSince(es[..i]), Allowed(c, st) - At(c, es, m).em.active)
    ensures Range(KillsSince(es[..i])) !! Range(StartsSince(es[..i]))
  {
    var p := es[..i];
    StepAt(c, es, i);
    PrefixAt(c, es, i, i);
    KillsFollowPlan(c, p);
    StartsFollowPlan(c, p);
    var k: nat :| KillProgress(c, p, k);
    var m: nat :| StartProgress(c, p, m);
    PrefixAt(c, es, i, k);
    PrefixAt(c, es, i, m);
    CallsSoFar(c, p, k);
    assert KillPlanAt(p, k) && StartPlanAt(p, m);
  }

  // What a step calls for on the application handler and the remote client. The notices of a
  // component change are the subject of ChangeNotifiesSurvivors.
  lemma EveryStepsCalls(c: Config, es: seq<Event>, i: nat)
    requires Run(c, es) && i < |es|
    ensures At(c, es, 0).em.calls == []
    ensures !es[i].FillPending? ==>
              At(c, es, i + 1).em.calls == At(c, es, i).em.calls +
                match es[i]
                case KillOne(p) => [Kill(p)]
                case StartOne(p) => [Start(p)]
                case SendConfirm => [ConfirmTransition(Success)]
                case _ => []
  {
    StepAt(c, es, i);
    assert es[..0] == [];
    if !es[i].FillPending? {
      CallStep(c, At(c, es, i), es[i]);
    }
  }

  lemma CallStep(c: Config, s: State, e: Event)
    requires Enabled(s, e) && !e.FillPending?
    ensures Next(c, s, e).em.calls == s.em.calls +
              match e
              case KillOne(p) => [Kill(p)]
              case StartOne(p) => [Start(p)]
              case SendConfirm => [ConfirmTransition(Success)]
              case _ => []
  {
    assert s.em.calls + [] == s.em.calls;
  }

  // Over a whole run: nothing is started for a state that does not declare it, and nothing the
  // state declares is killed for it.
  lemma OnlyDeclaredStartOnlyUndeclaredDie(c: Config, es: seq<Event>, i: nat)
    requires Run(c, es) && i < |es|
    ensures var st := At(c, es, i).em.pending;
            && (es[i].StartOne? ==> st in c.states && st in c.supported && es[i].process in c.supported[st])
            && (es[i].KillOne? ==> st in c.states && !(st in c.supported && es[i].process in c.supported[st]))
  {
    InvAt(c, es, i);
    StepAt(c, es, i);
    FilteredIsRestriction(c, At(c, es, i).em.pending);
  }

  // ------------------------------------------------------------ event subscribers

  predicate KilledIn(es: seq<Event>, p: string) {
    exists i :: 0 <= i < |es| && es[i] == KillOne(p)
  }

  // The event-mode registrations not followed by a kill of the registered component.
  function Surviving(es: seq<Event>): seq<string> {
    if es == [] then []
    else
      (if es[0].Register? && es[0].mode.Event? && !KilledIn(es[1..], es[0].component)
       then [es[0].component] else [])
      + Surviving(es[1..])
  }

  lemma KilledInExtends(es: seq<Event>, e: Event, p: string)
    ensures KilledIn(es + [e], p) <==> KilledIn(es, p) || e == KillOne(p)
  {
    assert (es + [e])[|es|] == e;
    if KilledIn(es, p) {
      var i :| 0 <= i < |es| && es[i] == KillOne(p);
      assert (es + [e])[i] == KillOne(p);
    }
  }

  lemma {:induction false} SurvivingExtends(es: seq<Event>, e: Event)
    ensures Surviving(es + [e]) ==
            if e.KillOne? then Without(Surviving(es), {e.process})
            else if e.Register? && e.mode.Event? then Surviving(es) + [e.component]
            else Surviving(es)
  {
    if es == [] {
      assert (es + [e])[1..] == [];
    } else {
      assert (es + [e])[1..] == es[1..] + [e];
      SurvivingExtends(es[1..], e);
      var tail := Surviving(es[1..]);
      var head := if es[0].Register? && es[0].mode.Event? && !KilledIn(es[1..], es[0].component)
                  then [es[0].component] else [];
      if es[0].Register? {
        KilledInExtends(es[1..], e, es[0].component);
      }
      if e.KillOne? {
        WithoutAppend(head, tail, {e.process});
      } else if e.Register? {
        assert head + (tail + [e.component]) == head + tail + [e.component];
      }
    }
  }

  lemma SurvivingAtEnd(es: seq<Event>)
    requires es != []
    ensures var p, e := es[..|es| - 1], es[|es| - 1];
            Surviving(es) ==
            if e.KillOne? then Without(Surviving(p), {e.process})
            else if e.Register? && e.mode.Event? then Surviving(p) + [e.component]
            else Surviving(p)
  {
    SurvivingExtends(es[..|es| - 1], es[|es| - 1]);
    assert es[..|es| - 1] + [es[|es| - 1]] == es;
  }

  lemma SubscriberStep(c: Config, s: State, e: Event)
    requires Enabled(s, e)
    ensures Next(c, s, e).em.subscribers ==
            if e.KillOne? then Without(s.em.subscribers, {e.process})
            else if e.Register? && e.mode.Event? then s.em.subscribers + [e.component]
            else s.em.subscribers
  {
  }

  // In every run the subscriber list is exactly the surviving registrations, in order and with
  // their multiplicity.
  lemma {:induction false} SubscribersAreSurvivors(c: Config, es: seq<Event>)
    requires Run(c, es)
    ensures Final(c, es).em.subscribers == Surviving(es)
  {
    if es != [] {
      var n := |es| - 1;
      SubscribersAreSurvivors(c, es[..n]);
      SubscriberStep(c, Final(c, es[..n]), es[n]);
      SurvivingAtEnd(es);
    }
  }

  // One notice each, in order, of that state, after the calls made before.
  ghost predicate Told(before: seq<Call>, after: seq<Call>, subscribers: seq<string>, st: string) {
    && |after| == |before| + |subscribers| && before <= after
    && forall n :: 0 <= n < |subscribers| ==> after[|before| + n] == Notify(subscribers[n], st)
  }

  lemma FillStep(c: Config, s: State)
    requires s.worker.Filling? && ComponentInv(s)
    ensures Told(s.em.calls, Next(c, s, FillPending).em.calls, s.em.subscribers,
                 if s.em.pending == MACHINE_STATE_SUSPEND then COMPONENT_STATE_OFF else COMPONENT_STATE_ON)
  {
  }

  // Each component change notifies every surviving subscription once, in order, of the new state.
  lemma ChangeNotifiesSurvivors(c: Config, es: seq<Event>, i: nat)
    requires Run(c, es) && i < |es| && es[i].FillPending?
    ensures Told(At(c, es, i).em.calls, At(c, es, i + 1).em.calls, Surviving(es[..i]),
                 if At(c, es, i).em.pending == MACHINE_STATE_SUSPEND then COMPONENT_STATE_OFF
                 else COMPONENT_STATE_ON)
  {
    StepAt(c, es, i);
    InvAt(c, es, i);
    ValidPrefix(c, Init(c), es, i);
    SubscribersAreSurvivors(c, es[..i]);
    FillStep(c, At(c, es, i));
  }

  lemma {:induction false} SurvivorsRegistered(es: seq<Event>, p: string)
    requires p in Surviving(es)
    ensures exists j :: 0 <= j < |es| && es[j] == Register(p, UpdateMode.Event)
                        && forall k :: j < k < |es| ==> es[k] != KillOne(p)
  {
    var e := es[0];
    if e == Register(p, UpdateMode.Event) && !KilledIn(es[1..], p) {
      assert forall k :: 0 < k < |es| ==> es[k] == es[1..][k - 1];
    } else {
      SurvivorsRegistered(es[1..], p);
      var j :| 0 <= j < |es| - 1 && es[1..][j] == Register(p, UpdateMode.Event)
               && forall k :: j < k < |es| - 1 ==> es[1..][k] != KillOne(p);
      assert es[j + 1] == Register(p, UpdateMode.Event);
      assert forall k :: j + 1 < k < |es| ==> es[k] == es[1..][k - 1];
    }
  }

  // A process killed at event k is notified by a later change only if it registered in between.
  lemma KilledNotNotifiedUnlessReregistered(c: Config, es: seq<Event>, k: nat, i: nat, p: string)
    requires Run(c, es) && k < i < |es| && es[i].FillPending? && es[k] == KillOne(p)
    requires p in At(c, es, i).em.subscribers
    ensures exists j :: k < j < i && es[j] == Register(p, UpdateMode.Event)
  {
    PrefixAt(c, es, i, i);
    SubscribersAreSurvivors(c, es[..i]);
    SurvivorsRegistered(es[..i], p);
    var j :| 0 <= j < i && es[..i][j] == Register(p, UpdateMode.Event)
             && forall n :: j < n < i ==> es[..i][n] != KillOne(p);
    assert es[..i][k] == es[k];
    assert es[j] == Register(p, UpdateMode.Event);
  }

  // The per-process erasures of a kill loop amount to one filter of the list.
  function EraseEach(subscribers: seq<string>, killed: seq<string>): seq<string> {
    if killed == [] then subscribers
    else Without(EraseEach(subscribers, killed[..|killed| - 1]), {killed[|killed| - 1]})
  }

  lemma {:induction false} EraseEachIsOneFilter(subscribers: seq<string>, killed: seq<string>)
    ensures EraseEach(subscribers, killed) == Without(subscribers, Range(killed))
  {
    if killed == [] {
      WithoutNothing(subscribers);
      assert Range(killed) == {};
    } else {
      var n := |killed| - 1;
      EraseEachIsOneFilter(subscribers, killed[..n]);
      WithoutTwice(subscribers, Range(killed[..n]), {killed[n]});
      assert killed == killed[..n] + [killed[n]];
      assert Range(killed) == Range(killed[..n]) + {killed[n]};
    }
  }
}
