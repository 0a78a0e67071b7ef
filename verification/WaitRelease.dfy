// Why the wait of setMachineState is released.
module WaitRelease {
  import opened Types
  import opened Protocol
  import opened Invariants

  // The processes on which the active and the allowed set still differ.
  function Outstanding(c: Config, s: State): set<string> {
    Difference(s.em.active, Allowed(c, s.em.pending))
  }

  // A report an application following the plan may send while st is pending.
  predicate InPlan(c: Config, st: string, e: Event) {
    e.Report? ==>
      match e.appState
      case Running => e.app in Allowed(c, st)
      case ShuttingDown => e.app !in Allowed(c, st)
      case _ => true
  }

  // The report process p owes: running if it is allowed, shutting down if it is not.
  function Owed(c: Config, st: string, p: string): Event {
    Report(p, if p in Allowed(c, st) then Running else ShuttingDown)
  }

  function Difference(active: set<string>, allowed: set<string>): set<string> {
    (active - allowed) + (allowed - active)
  }

  lemma DifferenceMoves(active: set<string>, allowed: set<string>, p: string)
    ensures p in allowed ==> Difference(active + {p}, allowed) == Difference(active, allowed) - {p}
    ensures p !in allowed ==> Difference(active - {p}, allowed) == Difference(active, allowed) - {p}
  {
  }

  // In-plan reports never enlarge the difference; an owed one removes exactly its process.
  lemma ReportsShrinkOutstanding(c: Config, s: State, e: Event)
    requires Enabled(s, e) && e.Report? && InPlan(c, s.em.pending, e)
    ensures var d, d' := Outstanding(c, s), Outstanding(c, Next(c, s, e));
            && d' <= d && |d'| <= |d|
            && (e.app in d && e == Owed(c, s.em.pending, e.app) ==> d' == d - {e.app} && |d'| == |d| - 1)
  {
    var d, d' := Outstanding(c, s), Outstanding(c, Next(c, s, e));
    DifferenceMoves(s.em.active, Allowed(c, s.em.pending), e.app);
    Smaller(d', d);
  }

  lemma {:induction false} Smaller<T>(a: set<T>, b: set<T>)
    requires a <= b
    ensures |a| <= |b|
  {
    if a != {} {
      var x :| x in a;
      Smaller(a - {x}, b - {x});
    }
  }

  // isConfirmAvailable answers true exactly when nothing is outstanding.
  lemma ConfirmAvailableIffNothingOutstanding(c: Config, s: State)
    requires Inv(c, s)
    ensures SampleActiveSet(s.em).ready <==> |Outstanding(c, s)| == 0
  {
    assert Lookup(s.em.allowed, s.em.pending) == Allowed(c, s.em.pending);
    if |Outstanding(c, s)| == 0 {
      assert s.em.active - Allowed(c, s.em.pending) == {};
      assert Allowed(c, s.em.pending) - s.em.active == {};
    }
  }

  // The confirm is due at some state along the way.
  ghost predicate Released(c: Config, s: State, es: seq<Event>)
    requires ValidFrom(c, s, es)
  {
    exists i: nat :: i <= |es| && ReleasedAt(c, s, es, i)
  }

  ghost predicate ReleasedAt(c: Config, s: State, es: seq<Event>, i: nat)
    requires ValidFrom(c, s, es) && i <= |es|
  {
    ValidPrefix(c, s, es, i);
    After(c, s, es[..i]).worker.Confirming?
  }

  function WorkerSteps(es: seq<Event>): nat {
    if es == [] then 0
    else WorkerSteps(es[..|es| - 1]) + if es[|es| - 1].IsWorker() then 1 else 0
  }

  // Worker steps to the release when the active set matches and keeps matching.
  function StepsLeft(s: State): nat {
    match s.worker
    case FirstTest => 2
    case WaitHead => if s.em.ready then 1 else 4
    case WaitActive => if ComponentsMayRelease(s.em.pending) then 3 else 2
    case WaitConfirms => if s.em.ready then 2 else 5
    case _ => 0
  }

  lemma ReleasedExtends(c: Config, s: State, es: seq<Event>)
    requires ValidFrom(c, s, es) && es != []
    requires Released(c, s, es[..|es| - 1]) || After(c, s, es).worker.Confirming?
    ensures Released(c, s, es)
  {
    var n := |es| - 1;
    if After(c, s, es).worker.Confirming? {
      assert es[..|es|] == es;
      assert ReleasedAt(c, s, es, |es|);
    } else {
      var i: nat :| i <= n && ReleasedAt(c, s, es[..n], i);
      assert es[..n][..i] == es[..i];
      ValidPrefix(c, s, es, i);
      assert ReleasedAt(c, s, es, i);
    }
  }

  // A waiting worker stays in the wait, with its pending state, or sends its confirm.
  lemma WaitMoves(c: Config, s: State, e: Event)
    requires Waiting(s.worker) && Enabled(s, e)
    ensures var s' := Next(c, s, e);
            && s'.em.pending == s.em.pending
            && (Waiting(s'.worker) || s'.worker.Confirming?)
            && (!e.Report? ==> s'.em.active == s.em.active)
            && (!e.IsWorker() ==> s'.worker == s.worker && s'.em.ready == s.em.ready)
  {
  }

  // Until the release, only processes that have not sent their owed report are outstanding.
  lemma {:induction false} ReportsSettle(c: Config, s: State, es: seq<Event>)
    requires Waiting(s.worker) && ValidFrom(c, s, es)
    requires forall e :: e in es ==> InPlan(c, s.em.pending, e)
    ensures Released(c, s, es)
         || (&& Waiting(After(c, s, es).worker) && After(c, s, es).em.pending == s.em.pending
             && forall p :: p in Outstanding(c, After(c, s, es)) ==>
                  p in Outstanding(c, s) && Owed(c, s.em.pending, p) !in es)
  {
    if es != [] {
      var n := |es| - 1;
      var p, e := es[..n], es[n];
      ReportsSettle(c, s, p);
      if Released(c, s, p) {
        ReleasedExtends(c, s, es);
      } else {
        var t := After(c, s, p);
        WaitMoves(c, t, e);
        if Next(c, t, e).worker.Confirming? {
          ReleasedExtends(c, s, es);
        } else if e.Report? {
          ReportsShrinkOutstanding(c, t, e);
          forall q | q in Outstanding(c, After(c, s, es)) ensures Owed(c, s.em.pending, q) !in es {
            assert forall x :: x in es ==> x in p || x == e;
          }
        } else {
          assert Outstanding(c, After(c, s, es)) == Outstanding(c, t);
          assert forall x :: x in es ==> x in p || x == e;
        }
      }
    }
  }

  lemma StepsLeftStep(c: Config, s: State, e: Event)
    requires Inv(c, s) && Waiting(s.worker) && Enabled(s, e)
    requires Outstanding(c, s) == {} && InPlan(c, s.em.pending, e)
    ensures var s' := Next(c, s, e);
            && Outstanding(c, s') == {}
            && (s'.worker.Confirming? ||
                StepsLeft(s') + (if e.IsWorker() then 1 else 0) <= StepsLeft(s))
  {
    WaitMoves(c, s, e);
    ConfirmAvailableIffNothingOutstanding(c, s);
    if e.Report? {
      ReportsShrinkOutstanding(c, s, e);
    }
  }

  lemma {:induction false} MatchedWaitEnds(c: Config, s: State, es: seq<Event>)
    requires Inv(c, s) && Waiting(s.worker) && ValidFrom(c, s, es)
    requires Outstanding(c, s) == {}
    requires forall e :: e in es ==> InPlan(c, s.em.pending, e)
    ensures Released(c, s, es)
         || (&& Waiting(After(c, s, es).worker) && After(c, s, es).em.pending == s.em.pending
             && Outstanding(c, After(c, s, es)) == {}
             && StepsLeft(After(c, s, es)) + WorkerSteps(es) <= StepsLeft(s))
  {
    if es != [] {
      var n := |es| - 1;
      var p := es[..n];
      MatchedWaitEnds(c, s, p);
      if Released(c, s, p) {
        ReleasedExtends(c, s, es);
      } else {
        InvAfter(c, s, p);
        StepsLeftStep(c, After(c, s, p), es[n]);
        WaitMoves(c, After(c, s, p), es[n]);
        if After(c, s, es).worker.Confirming? {
          ReleasedExtends(c, s, es);
        }
      }
    }
  }

  // Any order, any interleaving: once every process the wait depends on has sent its owed report
  // and nobody reports against the plan, the next five steps of the worker include the release.
  lemma OwedReportsReleaseTheWait(c: Config, s: State, reports: seq<Event>, rest: seq<Event>)
    requires Inv(c, s) && Waiting(s.worker) && ValidFrom(c, s, reports + rest)
    requires forall e :: e in reports + rest ==> InPlan(c, s.em.pending, e)
    requires forall p :: p in Outstanding(c, s) ==> Owed(c, s.em.pending, p) in reports
    requires WorkerSteps(rest) >= 5
    ensures Released(c, s, reports + rest)
  {
    ReleasedWithin(c, s, reports, rest);
    assert forall e :: e in reports ==> e in reports + rest;
    assert forall e :: e in rest ==> e in reports + rest;
    ReportsSettle(c, s, reports);
    if !Released(c, s, reports) {
      InvAfter(c, s, reports);
      assert Outstanding(c, After(c, s, reports)) == {};
      MatchedWaitIsReleased(c, After(c, s, reports), rest);
    }
  }

  lemma MatchedWaitIsReleased(c: Config, s: State, es: seq<Event>)
    requires Inv(c, s) && Waiting(s.worker) && ValidFrom(c, s, es) && Outstanding(c, s) == {}
    requires forall e :: e in es ==> InPlan(c, s.em.pending, e)
    requires WorkerSteps(es) >= 5
    ensures Released(c, s, es)
  {
    MatchedWaitEnds(c, s, es);
  }

  // Worker steps to the release under Suspend or Running when nothing is pending any more.
  function StepsLeftUnpending(s: State): nat {
    match s.worker
    case FirstTest => 5
    case WaitHead => if s.em.ready || s.em.confirmed then 1 else 4
    case WaitActive => 3
    case WaitConfirms => 2
    case _ => 0
  }

  lemma UnpendingStep(c: Config, s: State, e: Event)
    requires Waiting(s.worker) && Enabled(s, e) && ComponentsMayRelease(s.em.pending) && s.em.awaiting == {}
    ensures var s' := Next(c, s, e);
            && s'.em.awaiting == {} && s'.em.pending == s.em.pending
            && (s'.worker.Confirming? ||
                (Waiting(s'.worker) &&
                 StepsLeftUnpending(s') + (if e.IsWorker() then 1 else 0) <= StepsLeftUnpending(s)))
  {
  }

  lemma {:induction false} UnpendingWaitEnds(c: Config, s: State, es: seq<Event>)
    requires Waiting(s.worker) && ValidFrom(c, s, es)
    requires ComponentsMayRelease(s.em.pending) && s.em.awaiting == {}
    ensures Released(c, s, es)
         || (&& Waiting(After(c, s, es).worker) && After(c, s, es).em.pending == s.em.pending
             && After(c, s, es).em.awaiting == {}
             && StepsLeftUnpending(After(c, s, es)) + WorkerSteps(es) <= StepsLeftUnpending(s))
  {
    if es != [] {
      var n := |es| - 1;
      UnpendingWaitEnds(c, s, es[..n]);
      if Released(c, s, es[..n]) {
        ReleasedExtends(c, s, es);
      } else {
        UnpendingStep(c, After(c, s, es[..n]), es[n]);
        if After(c, s, es).worker.Confirming? {
          ReleasedExtends(c, s, es);
        }
      }
    }
  }

  // Under Suspend and Running the wait also ends, within five worker steps, once no component
  // confirmation is pending, whatever is reported meanwhile.
  lemma NonePendingReleasesTheWait(c: Config, s: State, es: seq<Event>)
    requires Waiting(s.worker) && ValidFrom(c, s, es)
    requires s.em.pending == MACHINE_STATE_SUSPEND || s.em.pending == MACHINE_STATE_RUNNING
    requires s.em.awaiting == {} && WorkerSteps(es) >= 5
    ensures Released(c, s, es)
  {
    UnpendingWaitEnds(c, s, es);
  }

  // From the filling on the worker stays on its way to the wait, or in it, until the release.
  lemma {:induction false} WaitsOrReleased(c: Config, s: State, es: seq<Event>)
    requires (s.worker.Filling? || Waiting(s.worker)) && ValidFrom(c, s, es)
    ensures var t := After(c, s, es);
            || Released(c, s, es)
            || ((t.worker.Filling? || Waiting(t.worker)) && t.em.pending == s.em.pending)
  {
    if es != [] {
      var n := |es| - 1;
      var t := After(c, s, es[..n]);
      WaitsOrReleased(c, s, es[..n]);
      if Released(c, s, es[..n]) {
        ReleasedExtends(c, s, es);
      } else if Waiting(t.worker) {
        WaitMoves(c, t, es[n]);
        if After(c, s, es).worker.Confirming? {
          ReleasedExtends(c, s, es);
        }
      }
    }
  }

  // A release in a part of a run is one in the whole.
  lemma ReleasedInFront(c: Config, s: State, a: seq<Event>, b: seq<Event>)
    requires ValidFrom(c, s, a + b) && ValidFrom(c, s, a) && Released(c, s, a)
    ensures Released(c, s, a + b)
  {
    var i: nat :| i <= |a| && ReleasedAt(c, s, a, i);
    assert (a + b)[..i] == a[..i];
    assert ReleasedAt(c, s, a + b, i);
  }

  lemma ReleasedBehind(c: Config, s: State, a: seq<Event>, b: seq<Event>, t: State)
    requires ValidFrom(c, s, a + b) && ValidFrom(c, s, a) && t == After(c, s, a)
    requires ValidFrom(c, t, b) && Released(c, t, b)
    ensures Released(c, s, a + b)
  {
    var i: nat :| i <= |b| && ReleasedAt(c, t, b, i);
    var n := |a| + i;
    ValidPrefix(c, s, a + b, n);
    ValidPrefix(c, t, b, i);
    assert (a + b)[..n] == a + b[..i];
    AfterAppend(c, s, a, b[..i]);
    assert ReleasedAt(c, s, a + b, n);
  }

  lemma ReleasedWithin(c: Config, s: State, a: seq<Event>, b: seq<Event>)
    requires ValidFrom(c, s, a + b)
    ensures ValidFrom(c, s, a) && ValidFrom(c, After(c, s, a), b)
    ensures Released(c, s, a) || Released(c, After(c, s, a), b) ==> Released(c, s, a + b)
  {
    AfterAppend(c, s, a, b);
    if Released(c, s, a) {
      ReleasedInFront(c, s, a, b);
    } else if Released(c, After(c, s, a), b) {
      ReleasedBehind(c, s, a, b, After(c, s, a));
    }
  }
}
