// The Execution Manager composed with polling applications.
module WholeSystem {
  import opened Types
  import opened Protocol
  import opened Invariants
  import A = Application
  import R = Requester
  import W = WaitRelease

  // A poll is a fetch, the local reaction to it, and a confirm, with anything in between.
  datatype PollState =
    | NoPoll
    | Fetched(state: string, result: ReturnType)
    | Reacted(state: string, status: ReturnType)

  datatype Slot = Slot(app: A.App, poll: PollState)

  // apps are the modelled applications, by component name.
  datatype Sys = Sys(core: State, apps: map<string, Slot>)

  datatype SysEvent =
    | Core(event: Event)
    | Launch(name: string)
    | AppInit(name: string)
    | AppRun(name: string)
    | AppTerminate(name: string)
    | PollFetch(name: string)
    | PollReact(name: string)
    | PollConfirm(name: string)

  predicate Up(a: A.App) { a.phase.InRun? || a.phase.InSuspend? }

  // The modelled applications speak for themselves.
  predicate OutsideCall(s: Sys, e: Event) {
    && (e.Report? ==> e.app !in s.apps)
    && (e.Fetch? || e.ConfirmComponent? ==> e.component !in s.apps)
  }

  predicate CanSys(s: Sys, e: SysEvent) {
    match e
    case Core(ev) => OutsideCall(s, ev) && Enabled(s.core, ev)
    case _ =>
      && e.name in s.apps
      && var slot := s.apps[e.name];
      match e
      case Launch(_) => slot.app.phase.InShutDown? && slot.poll.NoPoll?
      case AppInit(_) => slot.app.phase.NotStarted?
      case AppRun(_) => slot.app.phase.InInit?
      case AppTerminate(_) => Up(slot.app) && slot.poll.NoPoll?
      case PollFetch(_) => Up(slot.app) && slot.poll.NoPoll?
      case PollReact(_) => slot.poll.Fetched?
      case PollConfirm(_) => slot.poll.Reacted?
  }

  // The application's own change of state.
  function Local(s: Sys, e: SysEvent): Slot
    requires CanSys(s, e) && !e.Core?
  {
    var slot := s.apps[e.name];
    match e
    case Launch(_) => Slot(A.NEW_APP, NoPoll)
    case AppInit(_) => slot.(app := A.Init(slot.app))
    case AppRun(_) => slot.(app := A.Run(slot.app))
    case AppTerminate(_) => slot.(app := A.Terminate(slot.app))
    case PollFetch(_) =>
      var (st, result) := ComponentReply(s.core.em, e.name);
      slot.(poll := Fetched(st, result))
    case PollReact(_) =>
      if slot.poll.result == KSuccess then
        var (app, status) := A.SetComponentState(slot.app, slot.poll.state);
        Slot(app, Reacted(slot.poll.state, status))
      else slot.(poll := Reacted(slot.poll.state, slot.poll.result))
    case PollConfirm(_) =>
      Slot(A.Confirm(slot.app, slot.poll.state, slot.poll.status), NoPoll)
  }

  // The remote calls the step makes: the reports it adds, the fetch, the confirm.
  function Sent(s: Sys, e: SysEvent): seq<Event>
    requires CanSys(s, e)
  {
    match e
    case Core(ev) => [ev]
    case Launch(_) => []
    case PollFetch(k) => [Fetch(k)]
    case PollConfirm(k) => var p := s.apps[k].poll; [ConfirmComponent(k, p.state, p.status)]
    case _ =>
      var before, after := s.apps[e.name].app.reports, Local(s, e).app.reports;
      if |after| > |before| then [Report(e.name, after[|after| - 1])] else []
  }

  function SysNext(c: Config, s: Sys, e: SysEvent): Sys
    requires CanSys(s, e)
  {
    var sent := Sent(s, e);
    Sys(if sent == [] then s.core else Next(c, s.core, sent[0]),
        if e.Core? then s.apps else s.apps[e.name := Local(s, e)])
  }

  predicate SysValid(c: Config, s: Sys, es: seq<SysEvent>)
    decreases |es|, 0
  {
    es == [] ||
    (SysValid(c, s, es[..|es| - 1]) && CanSys(SysAfter(c, s, es[..|es| - 1]), es[|es| - 1]))
  }

  function SysAfter(c: Config, s: Sys, es: seq<SysEvent>): Sys
    requires SysValid(c, s, es)
    decreases |es|, 1
  {
    if es == [] then s else SysNext(c, SysAfter(c, s, es[..|es| - 1]), es[|es| - 1])
  }

  function SysInit(c: Config, names: set<string>): Sys {
    Sys(Init(c), map k | k in names :: Slot(A.NEW_APP, NoPoll))
  }

  // The events of the core in a composed run.
  function CoreTrace(c: Config, s: Sys, es: seq<SysEvent>): seq<Event>
    requires SysValid(c, s, es)
  {
    if es == [] then []
    else CoreTrace(c, s, es[..|es| - 1]) + Sent(SysAfter(c, s, es[..|es| - 1]), es[|es| - 1])
  }

  // The component state stays what it is.
  predicate KeepsComponents(e: SysEvent) {
    !(e.Core? && e.event.SwitchComponents?)
  }

  predicate Fills(e: SysEvent) {
    e.Core? && e.event.FillPending?
  }

  lemma SentIsEnabled(s: Sys, e: SysEvent)
    requires CanSys(s, e)
    ensures |Sent(s, e)| <= 1
    ensures Sent(s, e) != [] ==>
              && Enabled(s.core, Sent(s, e)[0])
              && (KeepsComponents(e) ==> !Sent(s, e)[0].SwitchComponents?)
              && (Fills(e) <==> Sent(s, e)[0].FillPending?)
  {
  }

  // They form a run of the core: everything proved of runs holds of composed runs.
  lemma {:induction false} CoreRuns(c: Config, s: Sys, es: seq<SysEvent>)
    requires SysValid(c, s, es)
    ensures ValidFrom(c, s.core, CoreTrace(c, s, es))
    ensures After(c, s.core, CoreTrace(c, s, es)) == SysAfter(c, s, es).core
  {
    if es != [] {
      var n := |es| - 1;
      CoreRuns(c, s, es[..n]);
      var t, cs := SysAfter(c, s, es[..n]), CoreTrace(c, s, es[..n]);
      SentIsEnabled(t, es[n]);
      var sent := Sent(t, es[n]);
      if sent != [] {
        assert sent == [sent[0]];
        assert (cs + sent)[..|cs|] == cs;
      } else {
        assert cs + sent == cs;
      }
    }
  }

  // A fetched reply is worked on as the application's one action for it, whatever happens between
  // its reaction and its confirm; the manager gets the confirm the application records.
  lemma PollIsOneAction(s: Sys, s': Sys, k: string)
    requires CanSys(s, PollReact(k)) && k in s'.apps && s'.apps[k] == Local(s, PollReact(k))
    ensures CanSys(s', PollConfirm(k))
    ensures var app := Local(s', PollConfirm(k)).app;
            && app == A.Perform(s.apps[k].app, A.Reply(s.apps[k].poll.state, s.apps[k].poll.result))
            && var last := app.confirms[|app.confirms| - 1];
            Sent(s', PollConfirm(k)) == [ConfirmComponent(k, last.state, last.status)]
  {
  }

  // It fetches what the manager serves: the component state, or an error if it is not registered.
  lemma PollFetchesTheReply(s: Sys, k: string)
    requires CanSys(s, PollFetch(k))
    ensures Sent(s, PollFetch(k)) == [Fetch(k)] && Local(s, PollFetch(k)).app == s.apps[k].app
    ensures var poll := Local(s, PollFetch(k)).poll;
            if k in s.core.em.registered then poll == Fetched(s.core.em.component, KSuccess)
            else poll == Fetched("", KGeneralError)
  {
  }

  // ------------------------------------------------------------ reports and the active set

  ghost predicate ReportsAgree(s: Sys) {
    forall k :: k in s.apps ==>
      && (k in s.core.em.active <==> Up(s.apps[k].app))
      && (!s.apps[k].poll.NoPoll? ==> Up(s.apps[k].app))
      && (Up(s.apps[k].app) ==> A.Settled(s.apps[k].app))
  }

  lemma ReportsAgreeStep(c: Config, s: Sys, e: SysEvent)
    requires ReportsAgree(s) && CanSys(s, e)
    ensures ReportsAgree(SysNext(c, s, e))
  {
    var sent := Sent(s, e);
    if sent != [] {
      R.OnlyReportsMoveActive(c, s.core, sent[0]);
    }
    assert |COMPONENT_STATE_ON| != |COMPONENT_STATE_OFF|;
  }

  lemma {:induction false} ActiveIffUpFrom(c: Config, s: Sys, es: seq<SysEvent>)
    requires ReportsAgree(s) && SysValid(c, s, es)
    ensures ReportsAgree(SysAfter(c, s, es))
  {
    if es != [] {
      ActiveIffUpFrom(c, s, es[..|es| - 1]);
      ReportsAgreeStep(c, SysAfter(c, s, es[..|es| - 1]), es[|es| - 1]);
    }
  }

  // In every composed run an application is in the active set from its run to its termination,
  // whatever suspends, resumes and restarts lie in between.
  lemma ActiveIffUp(c: Config, names: set<string>, es: seq<SysEvent>, k: string)
    requires SysValid(c, SysInit(c, names), es) && k in SysAfter(c, SysInit(c, names), es).apps
    ensures var s := SysAfter(c, SysInit(c, names), es);
            k in s.core.em.active <==> s.apps[k].app.phase.InRun? || s.apps[k].app.phase.InSuspend?
  {
    ActiveIffUpFrom(c, SysInit(c, names), es);
  }

  // ------------------------------------------------------------ poll convergence

  // k is registered, and a poll it has under way was begun so, under the current component state.
  ghost predicate FreshPolls(s: Sys, k: string) {
    && k in s.apps && k in s.core.em.registered
    && var slot, st := s.apps[k], s.core.em.component;
    && (slot.poll.Fetched? ==> slot.poll == Fetched(st, KSuccess))
    && (slot.poll.Reacted? ==>
          slot.app.component == st && (slot.poll.status == KSuccess || slot.poll.status == KUnchanged))
  }

  // k has the current component state and nothing to confirm.
  ghost predicate Converged(s: Sys, k: string) {
    k in s.apps && s.apps[k].app.component == s.core.em.component && k !in s.core.em.awaiting
  }

  // Polling only: k does not terminate or restart.
  predicate Polls(e: SysEvent, k: string) {
    e != Launch(k) && e != AppTerminate(k) && e != AppInit(k) && e != AppRun(k)
  }

  lemma CoreKeeps(c: Config, s: State, e: Event)
    requires Enabled(s, e) && !e.SwitchComponents?
    ensures var s' := Next(c, s, e);
            && s'.em.component == s.em.component
            && s.em.registered <= s'.em.registered
            && s'.em.awaiting <= s.em.awaiting + (if e.FillPending? then s.em.registered else {})
            && (e.FillPending? ==> s'.em.registered == s.em.registered)
            && (e.ConfirmComponent? && Confirms(e, e.component) ==> e.component !in s'.em.awaiting)
  {
  }

  // No step of any party spoils a fresh poll, a fetch of a registered component begins one, and
  // its confirm converges; only the filling asks for one more confirm.
  lemma ProgressStep(c: Config, s: Sys, e: SysEvent, k: string)
    requires CanSys(s, e) && KeepsComponents(e) && Polls(e, k) && k in s.apps && A.IsValid(s.core.em.component)
    ensures var t := SysNext(c, s, e);
            && t.core.em.component == s.core.em.component && k in t.apps
            && (FreshPolls(s, k) || (e == PollFetch(k) && k in s.core.em.registered) ==> FreshPolls(t, k))
            && (FreshPolls(s, k) && e == PollConfirm(k) ==> Converged(t, k))
            && (FreshPolls(s, k) && Converged(s, k) && !Fills(e) ==> Converged(t, k))
  {
    var sent := Sent(s, e);
    if sent != [] {
      SentIsEnabled(s, e);
      CoreKeeps(c, s.core, sent[0]);
    }
  }

  // Within es k has fetched while it was registered ...
  ghost predicate HasFetched(c: Config, s: Sys, es: seq<SysEvent>, k: string)
    requires SysValid(c, s, es)
  {
    es != [] &&
    var n := |es| - 1;
    || HasFetched(c, s, es[..n], k)
    || (es[n] == PollFetch(k) && k in SysAfter(c, s, es[..n]).core.em.registered)
  }

  // ... and later confirmed, after the filling if there is one.
  ghost predicate CompletesPoll(c: Config, s: Sys, es: seq<SysEvent>, k: string)
    requires SysValid(c, s, es)
  {
    es != [] &&
    var n := |es| - 1;
    && !Fills(es[n])
    && (CompletesPoll(c, s, es[..n], k) || (es[n] == PollConfirm(k) && HasFetched(c, s, es[..n], k)))
  }

  lemma {:induction false} CompletedPollsConverge(c: Config, s: Sys, es: seq<SysEvent>, k: string)
    requires SysValid(c, s, es) && k in s.apps && A.IsValid(s.core.em.component)
    requires forall e :: e in es ==> KeepsComponents(e) && Polls(e, k)
    ensures var t := SysAfter(c, s, es);
            && t.core.em.component == s.core.em.component && k in t.apps
            && (HasFetched(c, s, es, k) ==> FreshPolls(t, k))
            && (CompletesPoll(c, s, es, k) ==> HasFetched(c, s, es, k) && Converged(t, k))
  {
    if es != [] {
      var n := |es| - 1;
      assert es == es[..n] + [es[n]];
      CompletedPollsConverge(c, s, es[..n], k);
      ProgressStep(c, SysAfter(c, s, es[..n]), es[n], k);
    }
  }

  // Who has to confirm: the components registered at the filling, or, when it has been done
  // before, at the start.
  function Expected(c: Config, s: Sys, es: seq<SysEvent>): set<string>
    requires SysValid(c, s, es)
  {
    if es == [] then s.core.em.registered
    else
      var n := |es| - 1;
      if Fills(es[n]) then SysAfter(c, s, es[..n]).core.em.registered else Expected(c, s, es[..n])
  }

  lemma {:induction false} OnlyExpectedPending(c: Config, s: Sys, es: seq<SysEvent>)
    requires SysValid(c, s, es) && forall e :: e in es ==> KeepsComponents(e)
    requires s.core.em.awaiting <= s.core.em.registered
    ensures var t := SysAfter(c, s, es);
            && t.core.em.awaiting <= Expected(c, s, es) <= t.core.em.registered
            && t.core.em.component == s.core.em.component
  {
    if es != [] {
      var n := |es| - 1;
      assert es == es[..n] + [es[n]];
      OnlyExpectedPending(c, s, es[..n]);
      var t := SysAfter(c, s, es[..n]);
      var sent := Sent(t, es[n]);
      SentIsEnabled(t, es[n]);
      if sent != [] {
        CoreKeeps(c, t.core, sent[0]);
      }
    }
  }

  // After a component change: once every expected component has completed a poll whose fetch
  // follows the change and whose confirm follows the filling, in any order and interleaving and
  // whatever polls were under way, nothing is pending and every one of them has the manager's
  // component state.
  lemma PollsConverge(c: Config, s: Sys, es: seq<SysEvent>)
    requires Inv(c, s.core) && Switched(s.core.worker) && SysValid(c, s, es)
    requires Expected(c, s, es) <= s.apps.Keys
    requires forall e :: e in es ==> KeepsComponents(e)
    requires forall e, k :: e in es && k in Expected(c, s, es) ==> Polls(e, k)
    requires forall k :: k in Expected(c, s, es) ==> CompletesPoll(c, s, es, k)
    ensures var t := SysAfter(c, s, es);
            && t.core.em.awaiting == {} && t.core.em.component == s.core.em.component
            && forall k :: k in Expected(c, s, es) ==>
                 k in t.apps && t.apps[k].app.component == t.core.em.component
  {
    OnlyExpectedPending(c, s, es);
    forall k | k in Expected(c, s, es) ensures Converged(SysAfter(c, s, es), k) {
      CompletedPollsConverge(c, s, es, k);
    }
  }

  lemma {:induction false} SysAppend(c: Config, s: Sys, a: seq<SysEvent>, b: seq<SysEvent>)
    requires SysValid(c, s, a + b)
    ensures SysValid(c, s, a) && SysValid(c, SysAfter(c, s, a), b)
    ensures SysAfter(c, s, a + b) == SysAfter(c, SysAfter(c, s, a), b)
  {
    if b == [] {
      assert a + b == a;
    } else {
      var n := |b| - 1;
      assert (a + b)[..|a + b| - 1] == a + b[..n];
      SysAppend(c, s, a, b[..n]);
    }
  }

  lemma CoreTraceGrows(c: Config, s: Sys, es: seq<SysEvent>, e: SysEvent)
    requires SysValid(c, s, es + [e])
    ensures SysValid(c, s, es) && CanSys(SysAfter(c, s, es), e)
    ensures CoreTrace(c, s, es + [e]) == CoreTrace(c, s, es) + Sent(SysAfter(c, s, es), e)
  {
    assert (es + [e])[..|es|] == es;
  }

  lemma {:induction false} CoreTraceAppend(c: Config, s: Sys, a: seq<SysEvent>, b: seq<SysEvent>, t: Sys)
    requires SysValid(c, s, a + b) && SysValid(c, s, a) && t == SysAfter(c, s, a) && SysValid(c, t, b)
    ensures CoreTrace(c, s, a + b) == CoreTrace(c, s, a) + CoreTrace(c, t, b)
  {
    if b == [] {
      assert a + b == a;
      assert CoreTrace(c, s, a) + [] == CoreTrace(c, s, a);
    } else {
      var p, e := b[..|b| - 1], b[|b| - 1];
      assert b == p + [e];
      assert a + b == a + p + [e];
      assert (a + b)[..|a + b| - 1] == a + p;
      CoreTraceAppend(c, s, a, p, t);
      CoreTraceStep(c, s, a, p, e, t);
    }
  }

  lemma {:induction false} CoreTraceStep(c: Config, s: Sys, a: seq<SysEvent>, p: seq<SysEvent>, e: SysEvent, t: Sys)
    requires SysValid(c, s, a) && t == SysAfter(c, s, a) && SysValid(c, s, a + p) && SysValid(c, t, p)
    requires SysValid(c, s, a + p + [e]) && SysValid(c, t, p + [e])
    requires CoreTrace(c, s, a + p) == CoreTrace(c, s, a) + CoreTrace(c, t, p)
    ensures CoreTrace(c, s, a + p + [e]) == CoreTrace(c, s, a) + CoreTrace(c, t, p + [e])
  {
    SysAppend(c, s, a, p);
    CoreTraceGrows(c, s, a + p, e);
    CoreTraceGrows(c, t, p, e);
    Associate(CoreTrace(c, s, a), CoreTrace(c, t, p), Sent(SysAfter(c, t, p), e));
  }

  lemma Associate<T>(x: seq<T>, y: seq<T>, z: seq<T>)
    ensures x + y + z == x + (y + z)
  {
  }

  // Polling alone ends a transition to Suspend or Running: once the pending set is filled and every
  // expected component has so completed a poll, the next five worker steps include the release.
  lemma PollsReleaseTheWait(c: Config, s: Sys, polls: seq<SysEvent>, rest: seq<SysEvent>)
    requires Inv(c, s.core)
    requires s.core.em.pending == MACHINE_STATE_SUSPEND || s.core.em.pending == MACHINE_STATE_RUNNING
    requires s.core.worker.Filling? || Waiting(s.core.worker)
    requires SysValid(c, s, polls + rest) && SysValid(c, s, polls) && SysValid(c, SysAfter(c, s, polls), rest)
    requires !SysAfter(c, s, polls).core.worker.Filling?
    requires Expected(c, s, polls) <= s.apps.Keys
    requires forall e :: e in polls ==> KeepsComponents(e)
    requires forall e, k :: e in polls && k in Expected(c, s, polls) ==> Polls(e, k)
    requires forall k :: k in Expected(c, s, polls) ==> CompletesPoll(c, s, polls, k)
    requires W.WorkerSteps(CoreTrace(c, SysAfter(c, s, polls), rest)) >= 5
    ensures ValidFrom(c, s.core, CoreTrace(c, s, polls + rest))
    ensures W.Released(c, s.core, CoreTrace(c, s, polls + rest))
  {
    var t := SysAfter(c, s, polls);
    var a, b := CoreTrace(c, s, polls), CoreTrace(c, t, rest);
    CoreTraceAppend(c, s, polls, rest, t);
    CoreRuns(c, s, polls);
    CoreRuns(c, t, rest);
    CoreRuns(c, s, polls + rest);
    W.ReleasedWithin(c, s.core, a, b);
    W.WaitsOrReleased(c, s.core, a);
    if !W.Released(c, s.core, a) {
      PollsConverge(c, s, polls);
      W.NonePendingReleasesTheWait(c, t.core, b);
    }
  }
}
