// What a client gets out of a request that the Execution Manager refuses.
module Refusals {
  import opened Types
  import opened Protocol
  import opened Mailbox

  predicate Refusable(c: Config, em: Em, st: string) {
    st !in c.states || st == em.current
  }

  // Nothing the worker has taken up or will find in its queue can start a transition.
  predicate Quiet(c: Config, s: State) {
    && (s.worker.Idle?
        || ((s.worker.Resetting? || s.worker.Checking?) && Refusable(c, s.em, s.worker.request)))
    && forall st :: st in s.queue ==> Refusable(c, s.em, st)
  }

  // A request that gets queued is one to be refused.
  predicate KeepsQuiet(c: Config, s: State, e: Event) {
    e.Request? && e.pid == s.msmPid ==> Refusable(c, s.em, e.state)
  }

  lemma QuietStep(c: Config, s: State, e: Event)
    requires Quiet(c, s) && Enabled(s, e) && KeepsQuiet(c, s, e)
    ensures var s' := Next(c, s, e);
            Quiet(c, s') && s'.em.current == s.em.current && !e.SendConfirm?
  {
  }

  predicate OnlyRefusable(c: Config, p: Pair, es: seq<PairEvent>)
    requires PairValid(c, p, es)
  {
    es == [] ||
    (var n := |es| - 1;
     && OnlyRefusable(c, p, es[..n])
     && forall e :: e in CoreEvents(es[n]) ==> KeepsQuiet(c, PairAfter(c, p, es[..n]).core, e))
  }

  lemma {:induction false} NoConfirmWhileQuiet(c: Config, p: Pair, es: seq<PairEvent>)
    requires Quiet(c, p.core) && PairValid(c, p, es) && OnlyRefusable(c, p, es)
    ensures Quiet(c, PairAfter(c, p, es).core)
    ensures PairAfter(c, p, es).core.em.current == p.core.em.current
    ensures forall e :: e in es ==> !SendsConfirm(e)
  {
    if es != [] {
      var n := |es| - 1;
      var q, e := PairAfter(c, p, es[..n]), es[n];
      NoConfirmWhileQuiet(c, p, es[..n]);
      CoreMoves(c, q, e);
      if CoreEvents(e) != [] {
        QuietStep(c, q.core, CoreEvents(e)[0]);
      }
      assert es == es[..n] + [e];
    }
  }

  // A call of SetMachineState to be refused, with no other request queued than such as are refused
  // too, that obtains a result.
  ghost predicate AnswersRefused(c: Config, p: Pair, pid: int, st: string, es: seq<PairEvent>) {
    && PairValid(c, p, es) && es != [] && es[0] == Ask(pid, st) && OnlyRefusable(c, p, es)
    && |PairAfter(c, p, es).box.obtained| > |p.box.obtained|
  }

  // A request that is foreign to the manifest or equal to the current state, made while the worker
  // is at rest, can obtain a result if and only if a confirm lies in the slot or is on its way.
  lemma RefusedAnswerIffOutstanding(c: Config, p: Pair, pid: int, st: string)
    requires PairInv(p) && MayAsk(p) && Quiet(c, p.core) && Refusable(c, p.core.em, st)
    ensures (exists es :: AnswersRefused(c, p, pid, st, es)) <==> Outstanding(p)
  {
    if es :| AnswersRefused(c, p, pid, st, es) {
      NoConfirmWhileQuiet(c, p, es);
      assert AnswersStale(c, p, pid, st, es);
      StaleAnswerIffOutstanding(c, p, pid, st);
    }
    if Outstanding(p) {
      var es := AnsweredByOutstanding(c, p, pid, st);
      AskedOnlyOnce(c, p, pid, st, es);
      assert AnswersRefused(c, p, pid, st, es);
    }
  }

  lemma {:induction false} AskedOnlyOnce(c: Config, p: Pair, pid: int, st: string, es: seq<PairEvent>)
    requires PairValid(c, p, es) && es != [] && es[0] == Ask(pid, st) && Refusable(c, p.core.em, st)
    requires forall e :: e in es[1..] ==> ClientSide(e)
    ensures OnlyRefusable(c, p, es)
  {
    var n := |es| - 1;
    if n == 0 {
      assert es[..n] == [];
    } else {
      assert es[n] == es[1..][n - 1] && es[..n][1..] == es[1..][..n - 1];
      assert ClientSide(es[n]) && CoreEvents(es[n]) == [];
      AskedOnlyOnce(c, p, pid, st, es[..n]);
    }
  }

  // With no confirm outstanding such a call ends, once answered, with its future taken for good:
  // no wait obtains anything, and when none is under way the next one will throw.
  lemma RefusedWaitLeavesFutureTaken(c: Config, p: Pair, pid: int, st: string, es: seq<PairEvent>)
    requires PairInv(p) && MayAsk(p) && Quiet(c, p.core) && Refusable(c, p.core.em, st) && !Outstanding(p)
    requires PairValid(c, p, es) && es != [] && es[0] == Ask(pid, st) && OnlyRefusable(c, p, es)
    ensures var q := PairAfter(c, p, es);
            && q.box.obtained == p.box.obtained && q.core.em.current == p.core.em.current
            && (Begin in es ==> WaitThrows(q.box))
  {
    RefusedAnswerIffOutstanding(c, p, pid, st);
    assert !AnswersRefused(c, p, pid, st, es);
    NoConfirmWhileQuiet(c, p, es);
    FutureStaysTaken(c, p, es);
  }

  lemma {:induction false} FutureStaysTaken(c: Config, p: Pair, es: seq<PairEvent>)
    requires PairValid(c, p, es)
    ensures var q := PairAfter(c, p, es);
            && p.box.obtained <= q.box.obtained
            && (q.box.obtained == p.box.obtained && (Begin in es || p.box.retrieved) ==> q.box.retrieved)
  {
    if es != [] {
      var n := |es| - 1;
      FutureStaysTaken(c, p, es[..n]);
      assert es == es[..n] + [es[n]];
      ObtainedGrows(c, PairAfter(c, p, es[..n]), es[n]);
    }
  }

  lemma ObtainedGrows(c: Config, p: Pair, e: PairEvent)
    requires CanPair(p, e) && (p.client.Asking? ==> p.box.wait.Away?)
    ensures var q := PairNext(c, p, e);
            && p.box.obtained <= q.box.obtained
            && (q.box.obtained == p.box.obtained && (e.Begin? || p.box.retrieved) ==> q.box.retrieved)
  {
  }
}
