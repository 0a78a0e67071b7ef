// What every step keeps, and hence what holds in every reachable state.
module Invariants {
  import opened Types
  import opened Protocol

  predicate InTransition(w: Worker) {
    !(w.Idle? || w.Resetting? || w.Checking?)
  }

  predicate Waiting(w: Worker) {
    w.FirstTest? || w.WaitHead? || w.WaitActive? || w.WaitConfirms?
  }

  // The component state has already been changed for the pending machine state.
  predicate Switched(w: Worker) {
    w.Filling? || Waiting(w) || w.Confirming? || w.Committing?
  }

  // Read as a total function the map is the one the constructor left, and no foreign key got in.
  ghost predicate AllowedKept(c: Config, em: Em) {
    && (forall st :: st in em.allowed ==> st in c.states)
    && (forall st :: Lookup(em.allowed, st) == Allowed(c, st))
  }

  ghost predicate PlanInv(c: Config, s: State) {
    var w := s.worker;
    && (w.Killing? ==> w.toKill !! Allowed(c, s.em.pending))
    && (w.Starting? ==>
          && w.toStart <= w.plan <= Allowed(c, s.em.pending)
          && w.rounds <= STARTUP_POLL_ROUNDS
          && (w.msmAlive ==> s.em.pending == MACHINE_STATE_STARTUP))
  }

  ghost predicate ComponentInv(s: State) {
    if Switched(s.worker) then s.em.component == ComponentStateFor(s.em.pending)
    else s.em.current != "" ==> s.em.component == ComponentStateFor(s.em.current)
  }

  ghost predicate BookInv(s: State) {
    && s.em.awaiting <= s.em.registered
    && Range(s.em.subscribers) <= s.em.registered
  }

  ghost predicate PendingInv(c: Config, s: State) {
    && (s.em.current == "" || s.em.current in c.states)
    && (InTransition(s.worker) ==> s.em.pending in c.states && s.em.pending != s.em.current)
  }

  predicate BeforeFirstTest(w: Worker) {
    w.Checking? || w.Filling? || w.FirstTest? || (InTransition(w) && !Switched(w))
  }

  ghost predicate Inv(c: Config, s: State) {
    && BookInv(s)
    && AllowedKept(c, s.em)
    && PendingInv(c, s)
    && ComponentInv(s)
    && PlanInv(c, s)
    && (BeforeFirstTest(s.worker) ==> !s.em.ready)
  }

  lemma BookStep(c: Config, s: State, e: Event)
    requires BookInv(s) && Enabled(s, e)
    ensures BookInv(Next(c, s, e))
  {
    if e.KillOne? {
      WithoutRange(s.em.subscribers, {e.process});
    }
  }

  lemma SamplingKeepsAllowed(c: Config, em: Em)
    requires AllowedKept(c, em) && em.pending in c.states
    ensures AllowedKept(c, SampleActiveSet(em))
  {
    var em' := SampleActiveSet(em);
    forall st ensures Lookup(em'.allowed, st) == Allowed(c, st) {
      assert Lookup(em.allowed, st) == Allowed(c, st);
    }
  }

  lemma AllowedStep(c: Config, s: State, e: Event)
    requires AllowedKept(c, s.em) && PendingInv(c, s) && Enabled(s, e)
    ensures AllowedKept(c, Next(c, s, e).em)
  {
    if e.TestFirst? || e.SampleActive? {
      SamplingKeepsAllowed(c, s.em);
    }
  }

  lemma PlanStep(c: Config, s: State, e: Event)
    requires AllowedKept(c, s.em) && PlanInv(c, s) && Enabled(s, e)
    ensures PlanInv(c, Next(c, s, e))
  {
    assert Lookup(s.em.allowed, s.em.pending) == Allowed(c, s.em.pending);
  }

  lemma FlagStep(c: Config, s: State, e: Event)
    requires ComponentInv(s) && PendingInv(c, s) && Enabled(s, e)
    requires BeforeFirstTest(s.worker) ==> !s.em.ready
    ensures var s' := Next(c, s, e);
            ComponentInv(s') && PendingInv(c, s') && (BeforeFirstTest(s'.worker) ==> !s'.em.ready)
  {
  }

  lemma InitInv(c: Config)
    ensures Inv(c, Init(c))
  {
  }

  lemma InvStep(c: Config, s: State, e: Event)
    requires Inv(c, s) && Enabled(s, e)
    ensures Inv(c, Next(c, s, e))
  {
    BookStep(c, s, e);
    AllowedStep(c, s, e);
    PlanStep(c, s, e);
    FlagStep(c, s, e);
  }

  lemma {:induction false} InvAfter(c: Config, s: State, es: seq<Event>)
    requires Inv(c, s) && ValidFrom(c, s, es)
    ensures Inv(c, After(c, s, es))
  {
    if es != [] {
      InvAfter(c, s, es[..|es| - 1]);
      InvStep(c, After(c, s, es[..|es| - 1]), es[|es| - 1]);
    }
  }

  lemma InvAt(c: Config, es: seq<Event>, i: nat)
    requires Run(c, es) && i <= |es|
    ensures Inv(c, At(c, es, i))
  {
    ValidPrefix(c, Init(c), es, i);
    InitInv(c);
    InvAfter(c, Init(c), es[..i]);
  }

  // ------------------------------------------------------------ what reachable states satisfy

  // At rest the component state served to pollers is kOff exactly under Suspend.
  lemma AgreementAtRest(c: Config, es: seq<Event>, i: nat)
    requires Run(c, es) && i <= |es|
    requires !InTransition(At(c, es, i).worker) && At(c, es, i).em.current != ""
    ensures var em := At(c, es, i).em;
            && (em.component == COMPONENT_STATE_OFF <==> em.current == MACHINE_STATE_SUSPEND)
            && (em.component == COMPONENT_STATE_ON <==> em.current != MACHINE_STATE_SUSPEND)
            && forall k :: k in em.registered ==> ComponentReply(em, k) == (em.component, KSuccess)
  {
    InvAt(c, es, i);
  }

  // The restriction made by filterStates: exactly the manifest's entries for machine states.
  lemma FilteredIsRestriction(c: Config, st: string)
    ensures st in Filtered(c) <==> st in c.supported && st in c.states
    ensures Allowed(c, st) == if st in c.states && st in c.supported then c.supported[st] else {}
  {
  }

  // Despite the inserting lookup, the allowed map means the same in every reachable state.
  lemma AllowedMapIsStable(c: Config, es: seq<Event>, i: nat, st: string)
    requires Run(c, es) && i <= |es|
    ensures var m := At(c, es, i).em.allowed;
            && (st in m ==> st in c.states)
            && (if st in m then m[st] else {}) == (if st in c.states && st in c.supported then c.supported[st] else {})
  {
    InvAt(c, es, i);
    FilteredIsRestriction(c, st);
  }

  // Bookkeeping of components in every reachable state.
  lemma ComponentBookkeeping(c: Config, es: seq<Event>, i: nat)
    requires Run(c, es) && i <= |es|
    ensures var em := At(c, es, i).em;
            && em.awaiting <= em.registered
            && Range(em.subscribers) <= em.registered
            && (i > 0 && es[i - 1].FillPending? ==> em.awaiting == em.registered)
  {
    InvAt(c, es, i);
    if i > 0 && es[i - 1].FillPending? {
      StepAt(c, es, i - 1);
      InvAt(c, es, i - 1);
    }
  }

  lemma RegisteredGrows(c: Config, es: seq<Event>, i: nat, j: nat)
    requires Run(c, es) && i <= j <= |es|
    ensures At(c, es, i).em.registered <= At(c, es, j).em.registered
    decreases j
  {
    if i < j {
      RegisteredGrows(c, es, i, j - 1);
      StepAt(c, es, j - 1);
    }
  }

  predicate Registers(es: seq<Event>, k: string) {
    exists i :: 0 <= i < |es| && es[i].Register? && es[i].component == k
  }

  lemma RegistersAtEnd(es: seq<Event>, k: string)
    requires es != []
    ensures var e := es[|es| - 1];
            Registers(es, k) <==> Registers(es[..|es| - 1], k) || (e.Register? && e.component == k)
  {
    if Registers(es[..|es| - 1], k) {
      var i :| 0 <= i < |es| - 1 && es[..|es| - 1][i].Register? && es[..|es| - 1][i].component == k;
      assert es[i].Register? && es[i].component == k;
    }
    if Registers(es, k) && !(es[|es| - 1].Register? && es[|es| - 1].component == k) {
      var i :| 0 <= i < |es| && es[i].Register? && es[i].component == k;
      assert es[..|es| - 1][i] == es[i];
    }
  }

  lemma RegisteredStep(c: Config, s: State, e: Event)
    requires Enabled(s, e)
    ensures Next(c, s, e).em.registered == s.em.registered + if e.Register? then {e.component} else {}
  {
  }

  // A poller is refused, with an empty state, exactly as long as it has never registered.
  lemma {:induction false} RefusedIffNeverRegistered(c: Config, es: seq<Event>, k: string)
    requires Run(c, es)
    ensures var (st, result) := ComponentReply(Final(c, es).em, k);
            && (result == KSuccess <==> Registers(es, k))
            && (!Registers(es, k) ==> st == "" && result == KGeneralError)
  {
    if es != [] {
      RefusedIffNeverRegistered(c, es[..|es| - 1], k);
      RegisteredStep(c, Final(c, es[..|es| - 1]), es[|es| - 1]);
      RegistersAtEnd(es, k);
    }
  }

  predicate Confirms(e: Event, k: string) {
    e.ConfirmComponent? && e.component == k && e.status != KGeneralError && e.status != KInvalid
  }

  lemma PendingStep(c: Config, s: State, e: Event, k: string)
    requires Enabled(s, e)
    ensures var s' := Next(c, s, e);
            && (k in s.em.awaiting ==> (k !in s'.em.awaiting <==> Confirms(e, k)))
            && (k !in s.em.awaiting && !e.FillPending? ==> k !in s'.em.awaiting)
  {
  }

  // A component leaves the pending set only by its own confirm with an accepted status, and
  // between two component changes it leaves exactly when it sends one.
  lemma {:induction false} LeavesPendingIffOwnConfirm(c: Config, es: seq<Event>, i: nat, j: nat, k: string)
    requires Run(c, es) && i <= j <= |es| && k in At(c, es, i).em.awaiting
    ensures k !in At(c, es, j).em.awaiting ==> exists n :: i <= n < j && Confirms(es[n], k)
    ensures (forall n :: i <= n < j ==> !es[n].FillPending?) ==>
              (k !in At(c, es, j).em.awaiting <==> exists n :: i <= n < j && Confirms(es[n], k))
    decreases j - i
  {
    if i < j {
      LeavesPendingIffOwnConfirm(c, es, i, j - 1, k);
      StepAt(c, es, j - 1);
      PendingStep(c, At(c, es, j - 1), es[j - 1], k);
      if k !in At(c, es, j).em.awaiting && k in At(c, es, j - 1).em.awaiting {
        assert Confirms(es[j - 1], k);
      }
    }
  }

  // ------------------------------------------------------------ progress and exact readings

  // Remote calls are served in every state, and the worker is never stuck: it rests exactly when it
  // is idle with nothing queued.
  lemma WorkerNeverStuck(c: Config, es: seq<Event>)
    requires Run(c, es)
    ensures var s := Final(c, es);
            && (forall e: Event :: !e.IsWorker() ==> Enabled(s, e))
            && ((exists e: Event :: e.IsWorker() && Enabled(s, e)) <==> !(s.worker.Idle? && s.queue == []))
  {
    InitInv(c);
    InvAfter(c, Init(c), es);
    var s := Final(c, es);
    if !(s.worker.Idle? && s.queue == []) {
      var e := WorkersMove(c, s);
      assert e.IsWorker() && Enabled(s, e);
    }
  }

  lemma WorkersMove(c: Config, s: State) returns (e: Event)
    requires Inv(c, s) && !(s.worker.Idle? && s.queue == [])
    ensures e.IsWorker() && Enabled(s, e)
  {
    match s.worker
    case Idle => e := Pop;
    case Resetting(_) => e := ResetFlags;
    case Checking(_) => e := CheckRequest;
    case PlanningKills => e := SnapshotKills;
    case Killing(toKill) =>
      e := KillsDone;
      if toKill != {} {
        var p :| p in toKill;
        e := KillOne(p);
      }
    case PlanningStarts => e := SnapshotStarts;
    case Starting(_, toStart, rounds, msmAlive) =>
      e := StartsDone;
      if toStart != {} {
        var p :| p in toStart;
        e := StartOne(p);
      } else if s.em.pending == MACHINE_STATE_STARTUP && !msmAlive && rounds < STARTUP_POLL_ROUNDS {
        e := PollRound({});
      }
    case Switching => e := SwitchComponents;
    case Filling => e := FillPending;
    case FirstTest => e := TestFirst;
    case WaitHead => e := LoopHead;
    case WaitActive => e := SampleActive;
    case WaitConfirms => e := SampleConfirms;
    case Confirming => e := SendConfirm;
    case Committing => e := Commit;
  }

  // The event gives the confirmation flag a value: the reset, a sample, a confirm that finds nobody
  // pending or is accepted.
  predicate Decides(s: State, e: Event) {
    || e.ResetFlags?
    || e.SampleConfirms?
    || (e.ConfirmComponent? && (s.em.awaiting == {} || (e.status != KGeneralError && e.status != KInvalid)))
  }

  // Index of the last such event; -1 when there was none.
  function LastDecision(c: Config, es: seq<Event>): (r: int)
    requires Run(c, es)
    ensures -1 <= r < |es|
  {
    if es == [] then -1
    else if Decides(Final(c, es[..|es| - 1]), es[|es| - 1]) then |es| - 1
    else LastDecision(c, es[..|es| - 1])
  }

  lemma DecisionStep(c: Config, s: State, e: Event)
    requires Enabled(s, e)
    ensures Next(c, s, e).em.confirmed ==
            if !Decides(s, e) then s.em.confirmed else !e.ResetFlags? && Next(c, s, e).em.awaiting == {}
  {
  }

  // In every run the flag is up if and only if the last event to decide it was no reset and left
  // nobody pending. A confirm that leaves somebody pending takes it down again.
  lemma {:induction false} ConfirmedIffLastDecision(c: Config, es: seq<Event>)
    requires Run(c, es)
    ensures var r := LastDecision(c, es);
            Final(c, es).em.confirmed <==> r >= 0 && !es[r].ResetFlags? && At(c, es, r + 1).em.awaiting == {}
  {
    if es != [] {
      var n := |es| - 1;
      ConfirmedIffLastDecision(c, es[..n]);
      DecisionStep(c, Final(c, es[..n]), es[n]);
      var r := LastDecision(c, es);
      if r == n {
        assert es[..n + 1] == es;
      } else if r >= 0 {
        PrefixAt(c, es, n, r + 1);
      }
    }
  }

  // Index of the last component change; -1 when there was none.
  function LastSwitch(es: seq<Event>): (r: int)
    ensures -1 <= r < |es|
  {
    if es == [] then -1
    else if es[|es| - 1].SwitchComponents? then |es| - 1
    else LastSwitch(es[..|es| - 1])
  }

  lemma ComponentStep(c: Config, s: State, e: Event)
    requires Enabled(s, e)
    ensures Next(c, s, e).em.component ==
            if !e.SwitchComponents? then s.em.component
            else if s.em.pending == MACHINE_STATE_SUSPEND then COMPONENT_STATE_OFF
            else COMPONENT_STATE_ON
  {
  }

  // In every state, in a transition or not, pollers are served what the last component change made
  // of its pending state: nothing before the first, then kOff under Suspend and kOn otherwise.
  lemma {:induction false} ServedStateIsLastSwitch(c: Config, es: seq<Event>)
    requires Run(c, es)
    ensures var r := LastSwitch(es);
            Final(c, es).em.component ==
            if r < 0 then ""
            else if At(c, es, r).em.pending == MACHINE_STATE_SUSPEND then COMPONENT_STATE_OFF
            else COMPONENT_STATE_ON
  {
    if es != [] {
      var n := |es| - 1;
      ServedStateIsLastSwitch(c, es[..n]);
      ComponentStep(c, Final(c, es[..n]), es[n]);
      var r := LastSwitch(es);
      if r >= 0 {
        PrefixAt(c, es, n, r);
      }
    }
  }
}
