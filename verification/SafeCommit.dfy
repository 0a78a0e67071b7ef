// What a commit guarantees: instants of the same transition at which the wait's condition held.
module SafeCommit {
  import opened Types
  import opened Protocol
  import opened Invariants

  // Index of the last flag reset, the first write of a transition; -1 when there was none.
  function LastReset(es: seq<Event>): (r: int)
    ensures -1 <= r < |es|
    ensures r >= 0 ==> es[r].ResetFlags?
    ensures forall i :: r < i < |es| ==> !es[i].ResetFlags?
  {
    if es == [] then -1
    else if es[|es| - 1].ResetFlags? then |es| - 1
    else LastReset(es[..|es| - 1])
  }

  // Index of the last filling of the pending set; -1 when there was none.
  function LastFill(es: seq<Event>): (r: int)
    ensures -1 <= r < |es|
    ensures r >= 0 ==> es[r].FillPending?
    ensures forall i :: r < i < |es| ==> !es[i].FillPending?
  {
    if es == [] then -1
    else if es[|es| - 1].FillPending? then |es| - 1
    else LastFill(es[..|es| - 1])
  }

  // Event j - 1, later than the filling, compared the sets and found the active one allowed for st.
  ghost predicate MatchedAt(c: Config, es: seq<Event>, j: nat, st: string)
    requires Run(c, es)
  {
    && LastReset(es) < LastFill(es) < j - 1 < |es|
    && (es[j - 1].TestFirst? || es[j - 1].SampleActive?)
    && At(c, es, j).em.active == Allowed(c, st) && At(c, es, j).em.pending == st
  }

  // After event j - 1, the filling or a later one, no component confirmation was pending.
  ghost predicate UnpendingAt(c: Config, es: seq<Event>, j: nat)
    requires Run(c, es)
  {
    LastReset(es) < LastFill(es) < j <= |es| && At(c, es, j).em.awaiting == {}
  }

  // The confirmation flag was up already when the pending set was filled.
  ghost predicate EarlyFlag(c: Config, es: seq<Event>)
    requires Run(c, es)
  {
    LastReset(es) < LastFill(es) && At(c, es, LastFill(es)).em.confirmed
  }

  // Round j of the start-up poll saw p alive: its name contains "msm", and it was allowed and not
  // active at plan k.
  ghost predicate MsmSeenAt(c: Config, es: seq<Event>, k: nat, j: nat, p: string)
    requires Run(c, es)
  {
    && LastReset(es) < k < j < |es|
    && es[k].SnapshotStarts? && es[j].PollRound?
    && p in es[j].alive && (exists a, b: string :: p == a + "msm" + b)
    && p in Allowed(c, MACHINE_STATE_STARTUP) && p !in At(c, es, k).em.active
  }

  ghost predicate Matched(c: Config, es: seq<Event>, st: string)
    requires Run(c, es)
  {
    exists j: nat :: MatchedAt(c, es, j, st)
  }

  ghost predicate Unpending(c: Config, es: seq<Event>)
    requires Run(c, es)
  {
    exists j: nat :: UnpendingAt(c, es, j)
  }

  ghost predicate MsmSeen(c: Config, es: seq<Event>)
    requires Run(c, es)
  {
    exists k: nat, j: nat, p :: MsmSeenAt(c, es, k, j, p)
  }

  // The index of the plan the worker is starting from.
  ghost predicate PlannedAt(c: Config, es: seq<Event>, k: nat)
    requires Run(c, es)
  {
    && LastReset(es) < k < |es| && es[k].SnapshotStarts?
    && Final(c, es).worker.Starting?
    && Final(c, es).worker.plan == Allowed(c, Final(c, es).em.pending) - At(c, es, k).em.active
  }

  predicate Justified(w: Worker) { w.Confirming? || w.Committing? }

  predicate Filled(w: Worker) { Waiting(w) || Justified(w) }

  lemma PrefixesAgree(c: Config, es: seq<Event>)
    requires Run(c, es) && es != []
    ensures Run(c, es[..|es| - 1])
    ensures forall j: nat :: j < |es| ==> At(c, es[..|es| - 1], j) == At(c, es, j)
  {
    forall j: nat | j < |es| ensures At(c, es[..|es| - 1], j) == At(c, es, j) {
      PrefixAt(c, es, |es| - 1, j);
    }
  }

  // Witnesses found on a run stay witnesses on its extensions up to the next reset or filling.
  lemma WitnessesLast(c: Config, es: seq<Event>)
    requires Run(c, es) && es != [] && !es[|es| - 1].ResetFlags? && !es[|es| - 1].FillPending?
    ensures var p := es[..|es| - 1];
            && (forall st :: Matched(c, p, st) ==> Matched(c, es, st))
            && (Unpending(c, p) ==> Unpending(c, es))
            && (EarlyFlag(c, p) ==> EarlyFlag(c, es))
  {
    var p := es[..|es| - 1];
    PrefixesAgree(c, es);
    forall st | Matched(c, p, st) ensures Matched(c, es, st) {
      var j: nat :| MatchedAt(c, p, j, st);
      assert MatchedAt(c, es, j, st);
    }
    if Unpending(c, p) {
      var j: nat :| UnpendingAt(c, p, j);
      assert UnpendingAt(c, es, j);
    }
  }

  lemma MsmStaysSeen(c: Config, es: seq<Event>)
    requires Run(c, es) && es != [] && !es[|es| - 1].ResetFlags? && MsmSeen(c, es[..|es| - 1])
    ensures MsmSeen(c, es)
  {
    PrefixesAgree(c, es);
    var k: nat, j: nat, q :| MsmSeenAt(c, es[..|es| - 1], k, j, q);
    assert MsmSeenAt(c, es, k, j, q);
  }

  // Where the facts a commit rests on come from: an earlier step, or this one.
  lemma FlagOrigins(c: Config, s: State, e: Event)
    requires Inv(c, s) && Enabled(s, e)
    ensures var s' := Next(c, s, e);
            && (s'.em.ready ==>
                  && !e.ResetFlags? && !e.FillPending?
                  && (|| (s.em.ready && s'.em.pending == s.em.pending)
                      || (&& (e.TestFirst? || e.SampleActive?) && Waiting(s.worker)
                          && s'.em.active == Allowed(c, s'.em.pending))))
            && (Filled(s'.worker) && s'.em.confirmed ==>
                  && !e.ResetFlags?
                  && if e.FillPending? then s.em.confirmed
                     else Filled(s.worker) && (s.em.confirmed || s'.em.awaiting == {}))
            && (Justified(s'.worker) ==>
                  && !e.ResetFlags? && !e.FillPending? && s'.em.pending == s.em.pending
                  && (|| Justified(s.worker)
                      || (Filled(s.worker) && WaitOver(s.em))))
  {
    assert Lookup(s.em.allowed, s.em.pending) == Allowed(c, s.em.pending);
  }

  // In the wait and after it the filling lies between the reset and now.
  lemma {:induction false} FillPrecedes(c: Config, es: seq<Event>)
    requires Run(c, es) && Filled(Final(c, es).worker)
    ensures LastReset(es) < LastFill(es)
    ensures At(c, es, LastFill(es)).worker.Filling?
  {
    var n := |es| - 1;
    PrefixesAgree(c, es);
    StepAt(c, es, n);
    PrefixAt(c, es, n, n);
    if !es[n].FillPending? {
      FillPrecedes(c, es[..n]);
    }
  }

  lemma {:induction false} ReadyIsWitnessed(c: Config, es: seq<Event>)
    requires Run(c, es)
    ensures var s := Final(c, es);
            && (s.em.ready ==> Matched(c, es, s.em.pending))
            && (Filled(s.worker) && s.em.confirmed ==> Unpending(c, es) || EarlyFlag(c, es))
            && (Justified(s.worker) ==>
                  || Matched(c, es, s.em.pending)
                  || (ComponentsMayRelease(s.em.pending) && (Unpending(c, es) || EarlyFlag(c, es))))
  {
    if es != [] {
      var n := |es| - 1;
      ReadyIsWitnessed(c, es[..n]);
      InvAt(c, es, n);
      PrefixAt(c, es, n, n);
      ReadyStep(c, es, Final(c, es[..n]), Final(c, es));
    }
  }

  lemma ReadyStep(c: Config, es: seq<Event>, s: State, s': State)
    requires es != [] && Run(c, es) && s == Final(c, es[..|es| - 1]) && s' == Final(c, es) && Inv(c, s)
    requires s.em.ready ==> Matched(c, es[..|es| - 1], s.em.pending)
    requires var p := es[..|es| - 1];
             && (Filled(s.worker) && s.em.confirmed ==> Unpending(c, p) || EarlyFlag(c, p))
             && (Justified(s.worker) ==>
                   || Matched(c, p, s.em.pending)
                   || (ComponentsMayRelease(s.em.pending) && (Unpending(c, p) || EarlyFlag(c, p))))
    ensures s'.em.ready ==> Matched(c, es, s'.em.pending)
    ensures Filled(s'.worker) && s'.em.confirmed ==> Unpending(c, es) || EarlyFlag(c, es)
    ensures Justified(s'.worker) ==>
              || Matched(c, es, s'.em.pending)
              || (ComponentsMayRelease(s'.em.pending) && (Unpending(c, es) || EarlyFlag(c, es)))
  {
    var n := |es| - 1;
    var e := es[n];
    FlagOrigins(c, s, e);
    PrefixesAgree(c, es);
    PrefixAt(c, es, n, n);
    assert At(c, es, n) == s;
    assert At(c, es, |es|) == s' by { assert es[..|es|] == es; }
    if Filled(s'.worker) {
      FillPrecedes(c, es);
    }
    if !e.ResetFlags? && !e.FillPending? {
      WitnessesLast(c, es);
      if (e.TestFirst? || e.SampleActive?) && Waiting(s.worker) && s'.em.active == Allowed(c, s'.em.pending) {
        FillPrecedes(c, es[..n]);
        assert MatchedAt(c, es, |es|, s'.em.pending);
      }
      if Filled(s'.worker) && s'.em.awaiting == {} {
        assert UnpendingAt(c, es, |es|);
      }
    }
  }

  lemma PlanOrigin(c: Config, s: State, e: Event)
    requires Inv(c, s) && Enabled(s, e) && Next(c, s, e).worker.Starting?
    ensures var s' := Next(c, s, e);
            && !e.ResetFlags? && s'.em.pending == s.em.pending && InTransition(s.worker)
            && if e.SnapshotStarts? then s'.worker.plan == Allowed(c, s.em.pending) - s.em.active
               else s.worker.Starting? && s'.worker.plan == s.worker.plan
  {
    assert Lookup(s.em.allowed, s.em.pending) == Allowed(c, s.em.pending);
  }

  lemma {:induction false} PlanIsWitnessed(c: Config, es: seq<Event>)
    requires Run(c, es) && Final(c, es).worker.Starting?
    ensures exists k: nat :: PlannedAt(c, es, k)
  {
    var n := |es| - 1;
    var p := es[..n];
    InvAt(c, es, n);
    PrefixAt(c, es, n, n);
    PlanOrigin(c, Final(c, p), es[n]);
    if es[n].SnapshotStarts? {
      ResetPrecedes(c, p);
      assert PlannedAt(c, es, n);
    } else {
      PlanIsWitnessed(c, p);
      var k: nat :| PlannedAt(c, p, k);
      PrefixAt(c, es, n, k);
      assert PlannedAt(c, es, k);
    }
  }

  // A transition in flight has its flag reset behind it.
  lemma {:induction false} ResetPrecedes(c: Config, es: seq<Event>)
    requires Run(c, es) && (InTransition(Final(c, es).worker) || Final(c, es).worker.Checking?)
    ensures LastReset(es) >= 0
  {
    if !es[|es| - 1].ResetFlags? {
      ResetPrecedes(c, es[..|es| - 1]);
    }
  }

  predicate PastStarting(s: State) {
    (s.worker.Switching? || Switched(s.worker)) && s.em.pending == MACHINE_STATE_STARTUP
  }

  // Where a seen msm process comes from: this round, or an earlier one.
  lemma StartupOrigin(c: Config, s: State, e: Event)
    requires Enabled(s, e)
    ensures var s' := Next(c, s, e);
            && (s'.worker.Starting? && s'.worker.msmAlive ==>
                  && !e.ResetFlags? && s.worker.Starting?
                  && (s.worker.msmAlive || (e.PollRound? && SeesMsm(s.worker.plan, e.alive)))
                  && (!s.worker.msmAlive ==> s.em.pending == MACHINE_STATE_STARTUP))
            && (PastStarting(s') ==>
                  !e.ResetFlags? && (PastStarting(s) || (s.worker.Starting? && s.worker.msmAlive)))
  {
  }

  lemma {:induction false} StartupIsWitnessed(c: Config, es: seq<Event>)
    requires Run(c, es)
    ensures var s := Final(c, es);
            (s.worker.Starting? && s.worker.msmAlive) || PastStarting(s) ==> MsmSeen(c, es)
  {
    if es != [] {
      var n := |es| - 1;
      var p := es[..n];
      StartupIsWitnessed(c, p);
      var s, s' := Final(c, p), Final(c, es);
      StartupOrigin(c, s, es[n]);
      if (s'.worker.Starting? && s'.worker.msmAlive) || PastStarting(s') {
        if MsmSeen(c, p) {
          MsmStaysSeen(c, es);
        } else {
          RoundWitnesses(c, es);
        }
      }
    }
  }

  lemma RoundWitnesses(c: Config, es: seq<Event>)
    requires Run(c, es) && es != [] && es[|es| - 1].PollRound?
    requires var s := Final(c, es[..|es| - 1]);
             && s.worker.Starting? && s.em.pending == MACHINE_STATE_STARTUP
             && SeesMsm(s.worker.plan, es[|es| - 1].alive)
    ensures MsmSeen(c, es)
  {
    var n := |es| - 1;
    var s := Final(c, es[..n]);
    PlanIsWitnessed(c, es[..n]);
    var k: nat :| PlannedAt(c, es[..n], k);
    PrefixAt(c, es, n, k);
    var q :| q in s.worker.plan && q in es[n].alive && NamesMsm(q);
    NamesMsmIff(q);
    assert MsmSeenAt(c, es, k, n, q);
  }

  // What the early flag means: since the reset some confirm was served that left nothing pending.
  ghost predicate ConfirmedEarly(c: Config, es: seq<Event>, n: nat)
    requires Run(c, es)
  {
    LastReset(es) < n < |es| && es[n].ConfirmComponent? && At(c, es, n + 1).em.awaiting == {}
  }

  ghost predicate AnyConfirmedEarly(c: Config, es: seq<Event>)
    requires Run(c, es)
  {
    exists n: nat :: ConfirmedEarly(c, es, n)
  }

  predicate Unfilled(w: Worker) {
    w.Checking? || (InTransition(w) && !Filled(w))
  }

  lemma EarlyOrigin(c: Config, s: State, e: Event)
    requires Enabled(s, e) && Unfilled(Next(c, s, e).worker)
    requires Unfilled(s.worker) && s.em.confirmed ==> s.em.awaiting == {}
    ensures var s' := Next(c, s, e);
            && (e.ResetFlags? ==> !s'.em.confirmed)
            && (!e.ResetFlags? ==>
                  && Unfilled(s.worker)
                  && (s'.em.confirmed <==> s.em.confirmed || (e.ConfirmComponent? && s'.em.awaiting == {})))
            && (s'.em.confirmed ==> s'.em.awaiting == {})
  {
  }

  // Up to the filling the confirmation flag is up if and only if there was such a confirm.
  lemma {:induction false} EarlyFlagIffEarlyConfirm(c: Config, es: seq<Event>)
    requires Run(c, es) && Unfilled(Final(c, es).worker)
    ensures Final(c, es).em.confirmed <==> AnyConfirmedEarly(c, es)
    ensures Final(c, es).em.confirmed ==> Final(c, es).em.awaiting == {}
  {
    var n := |es| - 1;
    var p, e := es[..n], es[n];
    PrefixesAgree(c, es);
    assert At(c, es, |es|) == Final(c, es) by { assert es[..|es|] == es; }
    if e.ResetFlags? {
      EarlyOrigin(c, Final(c, p), e);
    } else {
      StillUnfilled(c, Final(c, p), e);
      EarlyFlagIffEarlyConfirm(c, p);
      EarlyOrigin(c, Final(c, p), e);
      EarlyConfirmsGrow(c, es);
    }
  }

  lemma StillUnfilled(c: Config, s: State, e: Event)
    requires Enabled(s, e) && Unfilled(Next(c, s, e).worker) && !e.ResetFlags?
    ensures Unfilled(s.worker)
  {
  }

  lemma EarlyConfirmsGrow(c: Config, es: seq<Event>)
    requires Run(c, es) && es != [] && !es[|es| - 1].ResetFlags?
    ensures AnyConfirmedEarly(c, es) <==>
            || AnyConfirmedEarly(c, es[..|es| - 1])
            || (es[|es| - 1].ConfirmComponent? && At(c, es, |es|).em.awaiting == {})
  {
    var p := es[..|es| - 1];
    PrefixesAgree(c, es);
    if n: nat :| ConfirmedEarly(c, p, n) {
      assert ConfirmedEarly(c, es, n);
    }
    if n: nat :| ConfirmedEarly(c, es, n) {
      assert n < |es| - 1 ==> ConfirmedEarly(c, p, n);
    }
    if es[|es| - 1].ConfirmComponent? && At(c, es, |es|).em.awaiting == {} {
      assert ConfirmedEarly(c, es, |es| - 1);
    }
  }

  // The commit guarantee, for every commit of every run. es[..i] ends just before the commit: after
  // this transition filled the pending set the sets were compared and equal, or, for Suspend and
  // Running only, nothing was pending, or the flag was up before the filling.
  lemma CommitIsSafe(c: Config, es: seq<Event>, i: nat)
    requires Run(c, es) && i < |es| && es[i].Commit?
    ensures Run(c, es[..i])
    ensures var st := At(c, es, i).em.pending;
            && 0 <= LastReset(es[..i]) < LastFill(es[..i])
            && At(c, es, i + 1).em.current == st
            && (|| Matched(c, es[..i], st)
                || ((st == MACHINE_STATE_SUSPEND || st == MACHINE_STATE_RUNNING)
                    && (Unpending(c, es[..i]) || EarlyFlag(c, es[..i]))))
            && (st == MACHINE_STATE_STARTUP ==> MsmSeen(c, es[..i]))
  {
    ValidPrefix(c, Init(c), es, i);
    StepAt(c, es, i);
    ResetPrecedes(c, es[..i]);
    FillPrecedes(c, es[..i]);
    ReadyIsWitnessed(c, es[..i]);
    StartupIsWitnessed(c, es[..i]);
  }

  // A state is backed when its active set is the allowed one, or, under Suspend and Running, when
  // no confirmation is pending.
  ghost predicate BackedState(c: Config, s: State) {
    || s.em.active == Allowed(c, s.em.pending)
    || ((s.em.pending == MACHINE_STATE_SUSPEND || s.em.pending == MACHINE_STATE_RUNNING) && s.em.awaiting == {})
  }

  // Every commit whose transition was filled with the flag down is backed at some instant f < j <= i
  // of that transition; for other states than Suspend and Running every commit is, by the sets.
  lemma CommitBackedUnlessEarly(c: Config, es: seq<Event>, i: nat, f: nat)
    requires Run(c, es) && i < |es| && es[i].Commit? && f == LastFill(es[..i])
    ensures At(c, es, f).worker.Filling? && f < i
    ensures !At(c, es, f).em.confirmed ==> exists j: nat :: f < j <= i && BackedState(c, At(c, es, j))
    ensures At(c, es, i).em.pending != MACHINE_STATE_SUSPEND && At(c, es, i).em.pending != MACHINE_STATE_RUNNING ==>
              exists j: nat :: f + 1 < j <= i && At(c, es, j).em.active == Allowed(c, At(c, es, i + 1).em.current)
                               && (es[j - 1].TestFirst? || es[j - 1].SampleActive?)
  {
    CommitIsSafe(c, es, i);
    StepAt(c, es, i);
    FillPrecedes(c, es[..i]);
    var p, st := es[..i], At(c, es, i).em.pending;
    PrefixAt(c, es, i, f);
    if Matched(c, p, st) {
      var j: nat :| MatchedAt(c, p, j, st);
      PrefixAt(c, es, i, j);
      assert es[j - 1] == p[j - 1];
      assert BackedState(c, At(c, es, j));
    } else if Unpending(c, p) {
      var j: nat :| UnpendingAt(c, p, j);
      PrefixAt(c, es, i, j);
      FilledKeepsPending(c, es, i, f, j);
      assert BackedState(c, At(c, es, j));
    }
  }

  // From the filling to the commit the pending state does not change.
  lemma {:induction false} FilledKeepsPending(c: Config, es: seq<Event>, i: nat, f: nat, j: nat)
    requires Run(c, es) && i <= |es| && f == LastFill(es[..i]) && f < j <= i
    requires Run(c, es[..i]) && Filled(At(c, es, i).worker)
    ensures At(c, es, j).em.pending == At(c, es, i).em.pending && Filled(At(c, es, j).worker)
    decreases i - j
  {
    if j < i {
      FilledKeepsPending(c, es, i, f, j + 1);
      StepAt(c, es, j);
      assert es[j] == es[..i][j];
    }
  }
}
