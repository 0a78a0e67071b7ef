// Exactly when the commit of a transition is backed by its own component change.
module CommitBacking {
  import opened Types
  import opened Protocol
  import opened Invariants
  import opened SafeCommit

  // A continuation from a filling to a commit.
  ghost predicate FillsAndCommits(c: Config, s: State, es: seq<Event>) {
    ValidFrom(c, s, es) && es != [] && es[0].FillPending? && es[|es| - 1].Commit?
  }

  ghost predicate BackedWithin(c: Config, s: State, es: seq<Event>, j: nat)
    requires ValidFrom(c, s, es) && j <= |es|
  {
    ValidPrefix(c, s, es, j);
    BackedState(c, After(c, s, es[..j]))
  }

  // Some state after the filling is backed.
  ghost predicate Backed(c: Config, s: State, es: seq<Event>)
    requires ValidFrom(c, s, es)
  {
    exists j: nat :: 0 < j <= |es| && BackedWithin(c, s, es, j)
  }

  ghost predicate AlwaysBacked(c: Config, s: State) {
    forall es :: FillsAndCommits(c, s, es) ==> Backed(c, s, es)
  }

  // What the caller of the filling can look at: the flag, the registered and the active set.
  predicate SafeToFill(c: Config, s: State) {
    || (s.em.pending != MACHINE_STATE_SUSPEND && s.em.pending != MACHINE_STATE_RUNNING)
    || !s.em.confirmed
    || s.em.registered == {}
    || s.em.active == Allowed(c, s.em.pending)
  }

  lemma BackedExtends(c: Config, s: State, es: seq<Event>)
    requires ValidFrom(c, s, es) && es != []
    requires Backed(c, s, es[..|es| - 1]) || BackedState(c, After(c, s, es))
    ensures Backed(c, s, es)
  {
    var n := |es| - 1;
    if BackedState(c, After(c, s, es)) {
      assert es[..|es|] == es;
      assert BackedWithin(c, s, es, |es|);
    } else {
      var j: nat :| 0 < j <= n && BackedWithin(c, s, es[..n], j);
      assert es[..n][..j] == es[..j];
      assert BackedWithin(c, s, es, j);
    }
  }

  // What keeps the worker waiting as long as nothing is backed.
  predicate Stuck(s: State) {
    Waiting(s.worker) && !s.em.ready && (ComponentsMayRelease(s.em.pending) ==> !s.em.confirmed)
  }

  lemma StuckStep(c: Config, s: State, e: Event)
    requires Inv(c, s) && Stuck(s) && Enabled(s, e)
    ensures Stuck(Next(c, s, e)) || BackedState(c, Next(c, s, e))
  {
    assert Lookup(s.em.allowed, s.em.pending) == Allowed(c, s.em.pending);
  }

  lemma FillStep(c: Config, s: State)
    requires Inv(c, s) && s.worker.Filling? && SafeToFill(c, s)
    ensures Stuck(Next(c, s, FillPending)) || BackedState(c, Next(c, s, FillPending))
  {
  }

  lemma {:induction false} BackedOrStuck(c: Config, s: State, es: seq<Event>)
    requires Inv(c, s) && s.worker.Filling? && SafeToFill(c, s)
    requires ValidFrom(c, s, es) && es != [] && es[0].FillPending?
    ensures Backed(c, s, es) || Stuck(After(c, s, es))
  {
    var n := |es| - 1;
    if n == 0 {
      assert es[..n] == [];
      FillStep(c, s);
    } else {
      BackedOrStuck(c, s, es[..n]);
      InvAfter(c, s, es[..n]);
      if !Backed(c, s, es[..n]) {
        StuckStep(c, After(c, s, es[..n]), es[n]);
      }
    }
    if Backed(c, s, es[..n]) || BackedState(c, After(c, s, es)) {
      BackedExtends(c, s, es);
    }
  }

  // es leads from s to t without a backed state after the filling.
  ghost predicate Unbacked(c: Config, s: State, es: seq<Event>, t: State) {
    ValidFrom(c, s, es) && After(c, s, es) == t && es != [] && es[0].FillPending? && !Backed(c, s, es)
  }

  lemma UnbackedExtends(c: Config, s: State, es: seq<Event>, t: State, e: Event)
    requires Unbacked(c, s, es, t) && Enabled(t, e) && !BackedState(c, Next(c, t, e))
    ensures Unbacked(c, s, es + [e], Next(c, t, e))
  {
    var n := |es|;
    var all := es + [e];
    assert all[..n] == es;
    if Backed(c, s, all) {
      var j: nat :| 0 < j <= |all| && BackedWithin(c, s, all, j);
      if j <= n {
        assert all[..j] == es[..j];
        assert BackedWithin(c, s, es, j);
      } else {
        assert all[..j] == all;
      }
    }
  }

  // The way on is open and nothing on it is backed: an early flag, someone pending, a difference.
  ghost predicate Open(c: Config, t: State) {
    !BackedState(c, t) && ComponentsMayRelease(t.em.pending) && t.em.confirmed
  }

  lemma UnbackedFill(c: Config, s: State) returns (t: State)
    requires s.worker.Filling? && !SafeToFill(c, s)
    ensures Open(c, t) && t.worker.FirstTest? && Unbacked(c, s, [FillPending], t)
  {
    var es := [FillPending];
    assert es[..0] == [] && es[..1] == es;
    assert ValidFrom(c, s, []);
    t := Next(c, s, FillPending);
    assert s.em.registered <= t.em.awaiting;
    forall j: nat | 0 < j <= |es| ensures !BackedWithin(c, s, es, j) {
      assert es[..j] == es;
    }
  }

  // On the straight way from the filling to the commit nothing changes that backing looks at.
  lemma StraightStep(c: Config, s: State, es: seq<Event>, t: State, e: Event) returns (t': State)
    requires Enabled(t, e) && (e.TestFirst? || e.LoopHead? || e.SendConfirm? || e.Commit?)
    requires Open(c, t) && Unbacked(c, s, es, t)
    ensures Open(c, t') && Unbacked(c, s, es + [e], t')
    ensures e.TestFirst? ==> t'.worker.WaitHead?
    ensures e.LoopHead? ==> t'.worker.Confirming?
    ensures e.SendConfirm? ==> t'.worker.Committing?
  {
    t' := Next(c, t, e);
    UnbackedExtends(c, s, es, t, e);
  }

  // An early flag opens that way, whoever is registered and whatever is not active.
  lemma EarlyFlagGoesStraight(c: Config, s: State)
    requires s.worker.Filling? && !SafeToFill(c, s)
    ensures !AlwaysBacked(c, s)
  {
    var es := [FillPending];
    var t := UnbackedFill(c, s);
    t := StraightStep(c, s, es, t, TestFirst);
    t := StraightStep(c, s, es + [TestFirst], t, LoopHead);
    t := StraightStep(c, s, es + [TestFirst] + [LoopHead], t, SendConfirm);
    t := StraightStep(c, s, es + [TestFirst] + [LoopHead] + [SendConfirm], t, Commit);
    assert FillsAndCommits(c, s, es + [TestFirst] + [LoopHead] + [SendConfirm] + [Commit]);
  }

  // From a filling every commit that follows is backed by a state after it if and only if the
  // machine state is not Suspend or Running, or the confirmation flag is down, or no component is
  // registered, or the active set is the allowed one already.
  lemma CommitsBackedIffSafeToFill(c: Config, s: State)
    requires Inv(c, s) && s.worker.Filling?
    ensures AlwaysBacked(c, s) <==> SafeToFill(c, s)
  {
    if SafeToFill(c, s) {
      forall es | FillsAndCommits(c, s, es) ensures Backed(c, s, es) {
        BackedOrStuck(c, s, es);
        assert Enabled(After(c, s, es[..|es| - 1]), Commit);
      }
    } else {
      EarlyFlagGoesStraight(c, s);
    }
  }

  // The same in every run, the flag read off the calls served since the reset.
  lemma CommitsBackedIff(c: Config, es: seq<Event>)
    requires Run(c, es) && Final(c, es).worker.Filling?
    ensures var s := Final(c, es);
            AlwaysBacked(c, s) <==>
              || (s.em.pending != MACHINE_STATE_SUSPEND && s.em.pending != MACHINE_STATE_RUNNING)
              || !AnyConfirmedEarly(c, es)
              || s.em.registered == {}
              || s.em.active == Allowed(c, s.em.pending)
  {
    InitInv(c);
    InvAfter(c, Init(c), es);
    EarlyFlagIffEarlyConfirm(c, es);
    CommitsBackedIffSafeToFill(c, Final(c, es));
  }
}
