// Requests are served one at a time and in order, and each commit is confirmed once.
module Sequencing {
  import opened Types
  import opened Protocol
  import opened Invariants
  import S = SafeCommit

  // Starting-up, queued by the server's constructor, then every request that passed the gate.
  function Requests(c: Config, es: seq<Event>): seq<string>
    requires Run(c, es)
  {
    if es == [] then [MACHINE_STATE_STARTUP]
    else
      var p, e := es[..|es| - 1], es[|es| - 1];
      if e.Request? && e.pid == Final(c, p).msmPid then Requests(c, p) + [e.state] else Requests(c, p)
  }

  // The machine states committed so far.
  function Commits(c: Config, es: seq<Event>): seq<string>
    requires Run(c, es)
  {
    if es == [] then []
    else
      var p, e := es[..|es| - 1], es[|es| - 1];
      if e.Commit? then Commits(c, p) + [Final(c, p).em.pending] else Commits(c, p)
  }

  // The request the worker is serving, if any.
  function InFlight(s: State): seq<string> {
    match s.worker
    case Idle => []
    case Resetting(r) => [r]
    case Checking(r) => [r]
    case _ => [s.em.pending]
  }

  function ConfirmCount(calls: seq<Call>): nat {
    if calls == [] then 0
    else ConfirmCount(calls[..|calls| - 1])
         + if calls[|calls| - 1] == ConfirmTransition(Success) then 1 else 0
  }

  lemma {:induction false} ConfirmCountAppend(a: seq<Call>, b: seq<Call>)
    ensures ConfirmCount(a + b) == ConfirmCount(a) + ConfirmCount(b)
  {
    if b == [] {
      assert a + b == a;
    } else {
      assert (a + b)[..|a + b| - 1] == a + b[..|b| - 1];
      ConfirmCountAppend(a, b[..|b| - 1]);
    }
  }

  lemma {:induction false} NoticesHoldNoConfirm(subscribers: seq<string>, st: string)
    ensures ConfirmCount(Notices(subscribers, st)) == 0
  {
    if subscribers != [] {
      var n := |subscribers| - 1;
      assert Notices(subscribers, st)[..n] == Notices(subscribers[..n], st);
      NoticesHoldNoConfirm(subscribers[..n], st);
    }
  }

  lemma SubsequenceExtends<T>(a: seq<T>, b: seq<T>, x: T)
    requires Subsequence(a, b)
    ensures Subsequence(a, b + [x])
    ensures Subsequence(a + [x], b + [x])
  {
    var f: seq<nat> :| Embeds(f, a, b);
    assert Embeds(f, a, b + [x]);
    assert Embeds(f + [|b|], a + [x], b + [x]);
  }

  // The requests already finished; with the one in flight and the queue they are all requests.
  function Finished(c: Config, es: seq<Event>): seq<string>
    requires Run(c, es)
  {
    if es == [] then []
    else
      var p, e := es[..|es| - 1], es[|es| - 1];
      if !Final(c, p).worker.Idle? && Final(c, es).worker.Idle? then Finished(c, p) + InFlight(Final(c, p))
      else Finished(c, p)
  }

  // What a step hands over: a request it finishes, a request it lets in.
  lemma QueueStep(c: Config, s: State, e: Event)
    requires Enabled(s, e)
    ensures var s' := Next(c, s, e);
            var done := if !s.worker.Idle? && s'.worker.Idle? then InFlight(s) else [];
            var got := if e.Request? && e.pid == s.msmPid then [e.state] else [];
            InFlight(s) + s.queue + got == done + InFlight(s') + s'.queue
  {
  }

  lemma Regroup(done: seq<string>, a: seq<string>, q: seq<string>, got: seq<string>,
                now: seq<string>, a': seq<string>, q': seq<string>)
    requires a + q + got == now + a' + q'
    ensures done + a + q + got == done + now + a' + q'
  {
    assert done + a + q + got == done + (a + q + got);
    assert done + now + a' + q' == done + (now + a' + q');
  }

  // FIFO, one at a time: nothing is lost, repeated or overtaken between gate and worker.
  lemma {:induction false} RequestsAreServedInOrder(c: Config, es: seq<Event>)
    requires Run(c, es)
    ensures Requests(c, es) == Finished(c, es) + InFlight(Final(c, es)) + Final(c, es).queue
  {
    if es != [] {
      var p, e := es[..|es| - 1], es[|es| - 1];
      RequestsAreServedInOrder(c, p);
      var s := Final(c, p);
      var s' := Next(c, s, e);
      var now := if !s.worker.Idle? && s'.worker.Idle? then InFlight(s) else [];
      var got := if e.Request? && e.pid == s.msmPid then [e.state] else [];
      QueueStep(c, s, e);
      Regroup(Finished(c, p), InFlight(s), s.queue, got, now, InFlight(s'), s'.queue);
      HistoriesGrow(c, es, s, s', now, got);
    }
  }

  lemma HistoriesGrow(c: Config, es: seq<Event>, s: State, s': State, now: seq<string>, got: seq<string>)
    requires es != [] && Run(c, es) && s == Final(c, es[..|es| - 1]) && s' == Final(c, es)
    requires now == if !s.worker.Idle? && s'.worker.Idle? then InFlight(s) else []
    requires var e := es[|es| - 1]; got == if e.Request? && e.pid == s.msmPid then [e.state] else []
    ensures Requests(c, es) == Requests(c, es[..|es| - 1]) + got
    ensures Finished(c, es) == Finished(c, es[..|es| - 1]) + now
  {
  }

  lemma {:induction false} CommitsEmbedInFinished(c: Config, es: seq<Event>)
    requires Run(c, es)
    ensures Subsequence(Commits(c, es), Finished(c, es))
  {
    if es == [] {
      assert Embeds([], Commits(c, es), Finished(c, es));
    } else {
      var p := es[..|es| - 1];
      CommitsEmbedInFinished(c, p);
      var s := Final(c, p);
      if InFlight(s) != [] {
        SubsequenceExtends(Commits(c, p), Finished(c, p), InFlight(s)[0]);
        assert InFlight(s) == [InFlight(s)[0]];
      }
    }
  }

  // The committed states are a subsequence, in FIFO order, of the requests.
  lemma CommitsRefineRequests(c: Config, es: seq<Event>)
    requires Run(c, es)
    ensures Subsequence(Commits(c, es), Requests(c, es))
  {
    RequestsAreServedInOrder(c, es);
    CommitsEmbedInFinished(c, es);
    var f: seq<nat> :| Embeds(f, Commits(c, es), Finished(c, es));
    assert Embeds(f, Commits(c, es), Requests(c, es));
  }

  lemma CommitStep(c: Config, s: State, e: Event)
    requires Enabled(s, e)
    ensures var s' := Next(c, s, e);
            && s'.em.current == (if e.Commit? then s.em.pending else s.em.current)
            && (e.Commit? ==> InTransition(s.worker))
  {
  }

  // Every committed state is a manifest state other than the one before it, and the current
  // machine state is the last of them.
  lemma {:induction false} CommitsAreTransitions(c: Config, es: seq<Event>)
    requires Run(c, es)
    ensures var cs := Commits(c, es);
            && (forall i :: 0 <= i < |cs| ==> cs[i] in c.states)
            && (forall i :: 0 <= i < |cs| - 1 ==> cs[i] != cs[i + 1])
            && (cs != [] ==> cs[0] != "")
            && Final(c, es).em.current == (if cs == [] then "" else cs[|cs| - 1])
  {
    if es != [] {
      var p := es[..|es| - 1];
      CommitsAreTransitions(c, p);
      InitInv(c);
      InvAfter(c, Init(c), p);
      CommitStep(c, Final(c, p), es[|es| - 1]);
    }
  }

  function Confirmed(s: State): int {
    ConfirmCount(s.em.calls) - if s.worker.Committing? then 1 else 0
  }

  lemma ConfirmStep(c: Config, s: State, e: Event)
    requires Enabled(s, e)
    ensures Confirmed(Next(c, s, e)) == Confirmed(s) + if e.Commit? then 1 else 0
  {
    var s' := Next(c, s, e);
    if e.FillPending? {
      NoticesHoldNoConfirm(s.em.subscribers, s.em.component);
      ConfirmCountAppend(s.em.calls, Notices(s.em.subscribers, s.em.component));
    } else if s'.em.calls != s.em.calls {
      assert s'.em.calls[..|s.em.calls|] == s.em.calls;
    }
  }

  // Confirms sent are commits, or one more between the confirm and the assignment.
  lemma {:induction false} ConfirmsMatchCommits(c: Config, es: seq<Event>)
    requires Run(c, es)
    ensures ConfirmCount(Final(c, es).em.calls)
         == |Commits(c, es)| + if Final(c, es).worker.Committing? then 1 else 0
  {
    if es != [] {
      ConfirmsMatchCommits(c, es[..|es| - 1]);
      ConfirmStep(c, Final(c, es[..|es| - 1]), es[|es| - 1]);
    }
  }

  // ------------------------------------------------------------ refused requests

  // The worker took a request at event a and has not been idle since, up to event b.
  ghost predicate Serving(c: Config, es: seq<Event>, a: nat, b: nat) {
    && Run(c, es) && a < b <= |es| && es[a].Pop?
    && forall m: nat :: a < m < b ==> !At(c, es, m).worker.Idle?
  }

  // Only kills and starts were added.
  predicate OnlyProcessCalls(before: seq<Call>, after: seq<Call>) {
    before <= after && forall i :: |before| <= i < |after| ==> after[i].Kill? || after[i].Start?
  }

  // The two states of the manager differ in the flags at most.
  predicate FlagsOnly(em: Em, em': Em) {
    em' == em.(ready := em'.ready, confirmed := em'.confirmed)
  }

  ghost predicate WorkerTouchedFlagsOnly(c: Config, es: seq<Event>, a: nat, b: nat)
    requires Run(c, es) && b <= |es|
  {
    forall n: nat :: a <= n < b && es[n].IsWorker() ==> FlagsOnly(At(c, es, n).em, At(c, es, n + 1).em)
  }

  lemma ServingStep(c: Config, s: State, e: Event)
    requires Enabled(s, e) && !s.worker.Idle?
    ensures var s' := Next(c, s, e);
            && (!s'.worker.Idle? ==> InFlight(s') == InFlight(s))
            && (!e.Commit? ==> s'.em.current == s.em.current)
            && (!Switched(s'.worker) && !e.Commit? ==>
                  && !Switched(s.worker) && s'.em.component == s.em.component
                  && OnlyProcessCalls(s.em.calls, s'.em.calls))
            && (s'.worker.Checking? || e.CheckRequest? ==> s.worker.Resetting? || s.worker.Checking?)
            && (e.IsWorker() && (s'.worker.Checking? || (e.CheckRequest? && s'.worker.Idle?)) ==>
                  FlagsOnly(s.em, s'.em))
            && (s'.worker.Resetting? ==> s.worker.Resetting? && !e.IsWorker())
  {
  }

  lemma {:induction false} ServingSince(c: Config, es: seq<Event>, a: nat, n: nat)
    requires Serving(c, es, a, n) && !At(c, es, n).worker.Idle?
    ensures var s, t := At(c, es, a), At(c, es, n);
            && s.queue != [] && InFlight(t) == [s.queue[0]] && t.em.current == s.em.current
            && (!Switched(t.worker) ==>
                  t.em.component == s.em.component && OnlyProcessCalls(s.em.calls, t.em.calls))
            && (t.worker.Resetting? || t.worker.Checking? ==> WorkerTouchedFlagsOnly(c, es, a, n))
  {
    StepAt(c, es, n - 1);
    if n > a + 1 {
      ServingSince(c, es, a, n - 1);
      ServingStep(c, At(c, es, n - 1), es[n - 1]);
    }
  }

  // The two steps by which the worker gives a request up.
  lemma RefusalStep(c: Config, s: State, e: Event)
    requires Inv(c, s) && Enabled(s, e) && !s.worker.Idle? && Next(c, s, e).worker.Idle? && !e.Commit?
    ensures var s' := Next(c, s, e);
            && s'.em.component == s.em.component && s'.em.calls == s.em.calls
            && !Switched(s.worker)
            && (e.CheckRequest? || e.StartsDone?)
            && (e.CheckRequest? ==>
                  && s.worker.Checking? && FlagsOnly(s.em, s'.em)
                  && (s.worker.request !in c.states || s.worker.request == s.em.current))
            && (e.StartsDone? ==>
                  && InFlight(s) == [MACHINE_STATE_STARTUP]
                  && s.em.pending in c.states && s.em.pending != s.em.current
                  && s.worker.Starting? && s.worker.rounds == STARTUP_POLL_ROUNDS && !s.worker.msmAlive)
  {
  }

  // The rounds of the start-up poll since the last plan: what each found alive.
  function Rounds(es: seq<Event>): seq<set<string>> {
    if es == [] then []
    else
      match es[|es| - 1]
      case SnapshotStarts => []
      case PollRound(alive) => Rounds(es[..|es| - 1]) + [alive]
      case _ => Rounds(es[..|es| - 1])
  }

  lemma RoundStep(c: Config, s: State, e: Event)
    requires Enabled(s, e) && Next(c, s, e).worker.Starting?
    ensures var w := Next(c, s, e).worker;
            if e.SnapshotStarts? then w.rounds == 0 && !w.msmAlive
            else
              && s.worker.Starting? && w.plan == s.worker.plan
              && if e.PollRound?
                 then !s.worker.msmAlive && w.rounds == s.worker.rounds + 1 && w.msmAlive == SeesMsm(w.plan, e.alive)
                 else w.rounds == s.worker.rounds && w.msmAlive == s.worker.msmAlive
  {
  }

  lemma {:induction false} RoundsAreTracked(c: Config, es: seq<Event>)
    requires Run(c, es) && Final(c, es).worker.Starting?
    ensures var w := Final(c, es).worker;
            && |Rounds(es)| == w.rounds
            && (w.msmAlive <==> exists i :: 0 <= i < |Rounds(es)| && SeesMsm(w.plan, Rounds(es)[i]))
  {
    var n := |es| - 1;
    RoundStep(c, Final(c, es[..n]), es[n]);
    if !es[n].SnapshotStarts? {
      RoundsAreTracked(c, es[..n]);
      if es[n].PollRound? {
        assert Rounds(es)[|Rounds(es)| - 1] == es[n].alive;
      }
    }
  }

  // While starting, counter and verdict are those of the rounds: as many, and in one of them a
  // process of the plan was alive whose name contains "msm".
  lemma RoundsAreCounted(c: Config, es: seq<Event>)
    requires Run(c, es) && Final(c, es).worker.Starting?
    ensures var w := Final(c, es).worker;
            && |Rounds(es)| == w.rounds
            && (w.msmAlive <==> exists i, p :: 0 <= i < |Rounds(es)| && p in w.plan && p in Rounds(es)[i]
                                               && exists a, b: string :: p == a + "msm" + b)
  {
    RoundsAreTracked(c, es);
    forall p: string ensures NamesMsm(p) <==> exists a, b: string :: p == a + "msm" + b {
      NamesMsmIff(p);
    }
    var w := Final(c, es).worker;
    if i, p :| 0 <= i < |Rounds(es)| && p in w.plan && p in Rounds(es)[i] && NamesMsm(p) {
      assert SeesMsm(w.plan, Rounds(es)[i]);
    }
  }

  // Six rounds over a plan made since the last flag reset found none of its msm processes alive.
  ghost predicate SawNoMsm(c: Config, es: seq<Event>)
    requires Run(c, es)
  {
    && |Rounds(es)| == 6
    && exists k: nat ::
         && S.PlannedAt(c, es, k)
         && var plan := Allowed(c, MACHINE_STATE_STARTUP) - At(c, es, k).em.active;
         forall i, p :: 0 <= i < 6 && p in plan && p in Rounds(es)[i] ==> forall a, b: string :: p != a + "msm" + b
  }

  lemma StartingUpFailed(c: Config, es: seq<Event>)
    requires Run(c, es) && Final(c, es).em.pending == MACHINE_STATE_STARTUP
    requires var w := Final(c, es).worker; w.Starting? && w.rounds == STARTUP_POLL_ROUNDS && !w.msmAlive
    ensures SawNoMsm(c, es)
  {
    RoundsAreCounted(c, es);
    S.PlanIsWitnessed(c, es);
    var k: nat :| S.PlannedAt(c, es, k);
    assert Final(c, es).worker.plan == Allowed(c, MACHINE_STATE_STARTUP) - At(c, es, k).em.active;
  }

  // A request that ends without commit leaves the current state and the component state alone, and
  // the worker has sent neither a confirm nor a notice for it. It is foreign to the manifest or
  // equal to the current state, and then the worker has changed nothing but the flags; or it is
  // Starting-up, and six rounds found no live msm process.
  lemma RefusedRequestsLeaveTheMachine(c: Config, es: seq<Event>, a: nat, b: nat)
    requires Serving(c, es, a, b) && At(c, es, b).worker.Idle? && !es[b - 1].Commit?
    ensures Run(c, es[..b - 1])
    ensures var s, t := At(c, es, a), At(c, es, b);
            && s.queue != []
            && t.em.current == s.em.current && t.em.component == s.em.component
            && OnlyProcessCalls(s.em.calls, t.em.calls)
            && var request := s.queue[0];
            if request !in c.states || request == s.em.current
            then es[b - 1].CheckRequest? && WorkerTouchedFlagsOnly(c, es, a, b)
            else es[b - 1].StartsDone? && request == MACHINE_STATE_STARTUP && SawNoMsm(c, es[..b - 1])
  {
    var u, e := At(c, es, b - 1), es[b - 1];
    StepAt(c, es, b - 1);
    if b - 1 == a {
      assert false;
    }
    ServingSince(c, es, a, b - 1);
    InvAt(c, es, b - 1);
    ServingStep(c, u, e);
    RefusalStep(c, u, e);
    ValidPrefix(c, Init(c), es, b - 1);
    if e.StartsDone? {
      StartingUpFailed(c, es[..b - 1]);
    }
  }
}
