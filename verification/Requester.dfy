// Who may change the machine state, and what the active set means.
module Requester {
  import opened Types
  import opened Protocol

  // The pid of the first named registration with a real pid; -1 when there is none.
  function FirstRegistered(es: seq<Event>): int {
    if es == [] then -1
    else if es[0].RegisterMsm? && es[0].name != "" && es[0].pid != -1 then es[0].pid
    else FirstRegistered(es[1..])
  }

  lemma {:induction false} FirstRegisteredExtends(es: seq<Event>, e: Event)
    ensures FirstRegistered(es + [e]) ==
            if FirstRegistered(es) != -1 then FirstRegistered(es) else FirstRegistered([e])
  {
    if es == [] {
      assert es + [e] == [e];
    } else {
      assert (es + [e])[1..] == es[1..] + [e];
      FirstRegisteredExtends(es[1..], e);
    }
  }

  // In every run the registered pid is the first one offered, forever.
  lemma {:induction false} FirstRegistrationWins(c: Config, es: seq<Event>)
    requires Run(c, es)
    ensures Final(c, es).msmPid == FirstRegistered(es)
  {
    if es != [] {
      var n := |es| - 1;
      FirstRegistrationWins(c, es[..n]);
      assert es == es[..n] + [es[n]];
      FirstRegisteredExtends(es[..n], es[n]);
      assert [es[n]][1..] == [];
    }
  }

  // A request is queued if and only if it carries that pid; pids -1 included.
  lemma QueuedIffFirstRegistered(c: Config, es: seq<Event>, i: nat)
    requires Run(c, es) && i < |es| && es[i].Request?
    ensures At(c, es, i + 1).queue
         == At(c, es, i).queue + (if es[i].pid == FirstRegistered(es[..i]) then [es[i].state] else [])
  {
    StepAt(c, es, i);
    PrefixAt(c, es, i, i);
    FirstRegistrationWins(c, es[..i]);
  }

  predicate RegisteredAt(c: Config, es: seq<Event>, j: nat)
    requires Run(c, es) && j < |es|
  {
    es[j].RegisterMsm? && RegistrationAccepted(At(c, es, j), es[j].pid, es[j].name)
  }

  predicate PidsPositive(es: seq<Event>) {
    forall e :: e in es ==> (e.RegisterMsm? || e.Request? ==> e.pid > 0)
  }

  lemma {:induction false} FirstRegisteredIsRegistered(c: Config, es: seq<Event>)
    requires Run(c, es) && FirstRegistered(es) != -1
    ensures exists j: nat :: j < |es| && RegisteredAt(c, es, j) && es[j].pid == FirstRegistered(es)
  {
    var n := |es| - 1;
    var p := es[..n];
    assert es == p + [es[n]];
    FirstRegisteredExtends(p, es[n]);
    FirstRegistrationWins(c, p);
    PrefixAt(c, es, n, n);
    if FirstRegistered(p) != -1 {
      FirstRegisteredIsRegistered(c, p);
      var j: nat :| j < n && RegisteredAt(c, p, j) && p[j].pid == FirstRegistered(p);
      PrefixAt(c, es, n, j);
      assert RegisteredAt(c, es, j);
    } else {
      assert [es[n]][1..] == [];
      assert RegisteredAt(c, es, n);
    }
  }

  // With positive pids all successful registrations agree, and every request queued after the
  // initial Starting-up follows a successful registration of its own pid.
  lemma SingleRequester(c: Config, es: seq<Event>, i: nat)
    requires Run(c, es) && PidsPositive(es) && i < |es|
    ensures es[i].Request? && At(c, es, i + 1).queue != At(c, es, i).queue ==>
              exists j: nat :: j < i && RegisteredAt(c, es, j) && es[j].pid == es[i].pid
    ensures RegisteredAt(c, es, i) ==> es[i].pid == FirstRegistered(es)
  {
    PrefixAt(c, es, i, i);
    var p := es[..i];
    FirstRegistrationWins(c, p);
    if es[i].Request? {
      QueuedIffFirstRegistered(c, es, i);
      if es[i].pid == FirstRegistered(p) {
        assert es[i] in es;
        FirstRegisteredIsRegistered(c, p);
        var j: nat :| j < i && RegisteredAt(c, p, j) && p[j].pid == FirstRegistered(p);
        PrefixAt(c, es, i, j);
        assert RegisteredAt(c, es, j) && es[j].pid == es[i].pid;
      }
    }
    if RegisteredAt(c, es, i) {
      assert es[i] in es;
      FirstRegisteredStays(es, i);
    }
  }

  lemma {:induction false} FirstRegisteredStays(es: seq<Event>, i: nat)
    requires i < |es| && es[i].RegisterMsm? && es[i].name != "" && es[i].pid != -1
    ensures FirstRegistered(es) ==
            if FirstRegistered(es[..i]) != -1 then FirstRegistered(es[..i]) else es[i].pid
  {
    if i > 0 {
      assert es[1..][..i - 1] == es[..i][1..];
      FirstRegisteredStays(es[1..], i - 1);
    }
  }

  // Without that condition on pids the gate is open at first: a request carrying pid -1 is queued
  // though nobody has registered. It is the only such pid.
  lemma UnregisteredRequestQueuedIffMinusOne(c: Config, es: seq<Event>, i: nat)
    requires Run(c, es) && i < |es| && es[i].Request?
    requires forall j: nat :: j < i ==> !RegisteredAt(c, es, j)
    ensures At(c, es, i + 1).queue != At(c, es, i).queue <==> es[i].pid == -1
  {
    QueuedIffFirstRegistered(c, es, i);
    PrefixAt(c, es, i, i);
    if FirstRegistered(es[..i]) != -1 {
      FirstRegisteredIsRegistered(c, es[..i]);
      var j: nat :| j < i && RegisteredAt(c, es[..i], j);
      PrefixAt(c, es, i, j);
      assert RegisteredAt(c, es, j);
    }
  }

  // p's last running-or-shutting-down report was running.
  ghost predicate LastReportedRunning(es: seq<Event>, p: string) {
    exists i :: 0 <= i < |es| && es[i] == Report(p, Running)
                && forall j :: i < j < |es| ==> es[j] != Report(p, ShuttingDown)
  }

  lemma OnlyReportsMoveActive(c: Config, s: State, e: Event)
    requires Enabled(s, e)
    ensures Next(c, s, e).em.active ==
            match e
            case Report(a, Running) => s.em.active + {a}
            case Report(a, ShuttingDown) => s.em.active - {a}
            case _ => s.em.active
  {
  }

  lemma LastReportedRunningExtends(es: seq<Event>, e: Event, p: string)
    ensures LastReportedRunning(es + [e], p) <==>
            e == Report(p, Running) || (LastReportedRunning(es, p) && e != Report(p, ShuttingDown))
  {
    assert (es + [e])[|es|] == e;
    if LastReportedRunning(es, p) && e != Report(p, ShuttingDown) {
      var i :| 0 <= i < |es| && es[i] == Report(p, Running)
               && forall j :: i < j < |es| ==> es[j] != Report(p, ShuttingDown);
      assert (es + [e])[i] == Report(p, Running);
    }
    if LastReportedRunning(es + [e], p) && e != Report(p, Running) {
      var i :| 0 <= i <= |es| && (es + [e])[i] == Report(p, Running)
               && forall j :: i < j <= |es| ==> (es + [e])[j] != Report(p, ShuttingDown);
      assert es[i] == Report(p, Running);
      assert forall j :: i < j < |es| ==> es[j] == (es + [e])[j];
    }
  }

  // The active set of every reachable state, read off the reports received.
  lemma {:induction false} ActiveIffLastReportedRunning(c: Config, es: seq<Event>, p: string)
    requires Run(c, es)
    ensures p in Final(c, es).em.active <==> LastReportedRunning(es, p)
  {
    if es != [] {
      var n := |es| - 1;
      ActiveIffLastReportedRunning(c, es[..n], p);
      OnlyReportsMoveActive(c, Final(c, es[..n]), es[n]);
      LastReportedRunningExtends(es[..n], es[n], p);
      assert es == es[..n] + [es[n]];
    }
  }
}
