// Concrete runs in which a stronger reading of a guarantee fails; the exact conditions are theorems.
module Witnesses {
  import opened Types
  import opened Protocol
  import opened Manager
  import opened Mailbox
  import P = Plans
  import Q = Sequencing

  // ------------------------------------------------------------ the gate

  // A request nobody registered for is queued when it carries pid -1.
  lemma MinusOnePassesTheGate(c: Config, st: string)
    ensures Run(c, [Request(-1, st)])
    ensures Final(c, [Request(-1, st)]).queue == [MACHINE_STATE_STARTUP, st]
  {
    var es := [Request(-1, st)];
    assert es[..|es| - 1] == [];
    assert After(c, Init(c), []) == Init(c);
    assert Final(c, es) == Next(c, Init(c), es[0]);
  }

  // ------------------------------------------------------------ the wait

  const SUSPEND_ONLY := Config(map[MACHINE_STATE_SUSPEND := {"a"}], [MACHINE_STATE_SUSPEND])

  const PRELUDE := [RegisterMsm(1, "MSM"), Request(1, MACHINE_STATE_SUSPEND), Register("k", UpdateMode.Poll)]

  const STRAY := ConfirmComponent("x", "", KSuccess)

  lemma PreludeServed()
    ensures var s := Init(SUSPEND_ONLY);
            Leads(SUSPEND_ONLY, s,
                  s.(msmPid := 1, queue := [MACHINE_STATE_STARTUP, MACHINE_STATE_SUSPEND],
                     em := s.em.(registered := {"k"})), PRELUDE)
  {
    var c, s := SUSPEND_ONLY, Init(SUSPEND_ONLY);
    LeadsNowhere(c, s);
    var r1, r2, r3 := PRELUDE[0], PRELUDE[1], PRELUDE[2];
    LeadsOn(c, s, s, [], r1);
    var s1 := s.(msmPid := 1);
    assert [] + [r1] == [r1] && [r1] + [r2] == [r1, r2] && [r1, r2] + [r3] == PRELUDE;
    LeadsOn(c, s, s1, [r1], r2);
    var s2 := s1.(queue := [MACHINE_STATE_STARTUP, MACHINE_STATE_SUSPEND]);
    assert Next(c, s1, r2) == s2;
    LeadsOn(c, s, s2, [r1, r2], r3);
    assert {} + {"k"} == {"k"};
    assert Next(c, s2, r3) == s2.(em := s.em.(registered := {"k"}));
  }

  // Starting-up, which this manifest does not name, is refused.
  lemma StartupRefused(s: State)
    requires s.worker.Idle? && s.queue == [MACHINE_STATE_STARTUP, MACHINE_STATE_SUSPEND]
    requires !s.em.ready && !s.em.confirmed
    ensures Leads(SUSPEND_ONLY, s, s.(queue := [MACHINE_STATE_SUSPEND]), [])
  {
    var c := SUSPEND_ONLY;
    LeadsNowhere(c, s);
    LeadsWork(c, s, s, [], Pop);
    var t := s.(queue := [MACHINE_STATE_SUSPEND], worker := Resetting(MACHINE_STATE_STARTUP));
    assert Next(c, s, Pop) == t;
    CheckRun(c, t, MACHINE_STATE_STARTUP);
    LeadsTo(c, s, t, s.(queue := [MACHINE_STATE_SUSPEND]), [], []);
  }

  // Up to the flag reset of a requested Suspend, and one stray confirm right after it.
  lemma StrayConfirmServed() returns (t: State)
    ensures t == State(Em({}, SUSPEND_ONLY.supported, "", "", "", {"k"}, {}, [], false, true, []),
                       [], 1, Checking(MACHINE_STATE_SUSPEND))
    ensures Leads(SUSPEND_ONLY, Init(SUSPEND_ONLY), t, PRELUDE + [STRAY])
  {
    var c, s := SUSPEND_ONLY, Init(SUSPEND_ONLY);
    assert Filtered(c) == c.supported;
    PreludeServed();
    var s1 := s.(msmPid := 1, queue := [MACHINE_STATE_STARTUP, MACHINE_STATE_SUSPEND],
                 em := s.em.(registered := {"k"}));
    StartupRefused(s1);
    var s2 := s1.(queue := [MACHINE_STATE_SUSPEND]);
    LeadsTo(c, s, s1, s2, PRELUDE, []);
    assert PRELUDE + [] == PRELUDE;
    LeadsWork(c, s, s2, PRELUDE, Pop);
    var s3 := s2.(queue := [], worker := Resetting(MACHINE_STATE_SUSPEND));
    assert Next(c, s2, Pop) == s3;
    LeadsWork(c, s, s3, PRELUDE, ResetFlags);
    var s4 := s3.(worker := Checking(MACHINE_STATE_SUSPEND));
    LeadsOn(c, s, s4, PRELUDE, STRAY);
    t := Next(c, s4, STRAY);
  }

  // The transition up to the component change, after the stray confirm.
  lemma SuspendStarted(t: State)
    requires t == State(Em({}, SUSPEND_ONLY.supported, "", "", "", {"k"}, {}, [], false, true, []),
                        [], 1, Checking(MACHINE_STATE_SUSPEND))
    ensures Leads(SUSPEND_ONLY, t, t.(em := t.em.(pending := MACHINE_STATE_SUSPEND, calls := [Start("a")]),
                                     worker := Switching), [])
  {
    var c := SUSPEND_ONLY;
    LeadsNowhere(c, t);
    LeadsWork(c, t, t, [], CheckRequest);
    var t1 := t.(em := t.em.(pending := MACHINE_STATE_SUSPEND), worker := PlanningKills);
    assert Range<string>([]) == {};
    KillRun(c, t1, []);
    var t2 := t1.(worker := PlanningStarts);
    assert AfterKills(t1.em, []) == t1.em;
    LeadsTo(c, t, t1, t2, [], []);
    assert Range(["a"]) == {"a"};
    assert Lookup(t2.em.allowed, t2.em.pending) - t2.em.active == {"a"};
    assert MACHINE_STATE_SUSPEND != MACHINE_STATE_STARTUP by { assert |MACHINE_STATE_SUSPEND| == 7; }
    StartRun(c, t2, ["a"], [{}, {}, {}, {}, {}, {}], 0, true);
    assert t2.em.calls + P.StartCalls(["a"]) == [Start("a")];
    LeadsTo(c, t, t2, t2.(em := AfterStarts(t2.em, ["a"]), worker := Switching), [], []);
  }

  // From the component change to the commit without a remote call.
  lemma SuspendCommitted(t: State) returns (t': State)
    requires t.worker.Switching? && t.em.pending == MACHINE_STATE_SUSPEND && t.em.confirmed
    requires t.em.registered == {"k"} && t.em.awaiting == {}
    ensures Leads(SUSPEND_ONLY, t, t', []) && t'.worker.Idle? && t'.em.current == MACHINE_STATE_SUSPEND
    ensures t'.em.active == t.em.active && t'.em.registered == t'.em.awaiting == {"k"}
  {
    var c := SUSPEND_ONLY;
    ChangeRun(c, t);
    var t1 := t.(em := SampleActiveSet(AfterChange(t.em)), worker := WaitHead);
    CommitRun(c, t1);
    t' := t1.(em := AfterCommit(t1.em), worker := Idle);
    LeadsTo(c, t, t1, t', [], []);
    assert {} + {"k"} == {"k"};
  }

  // A confirm that arrives when nothing is pending yet releases the wait that follows: Suspend is
  // committed while its process was never reported running and the one component never confirmed.
  lemma StrayConfirmCommitsSuspend()
    ensures exists t, served ::
              && Leads(SUSPEND_ONLY, Init(SUSPEND_ONLY), t, served) && t.worker.Idle?
              && t.em.current == MACHINE_STATE_SUSPEND
              && t.em.active == {} != Allowed(SUSPEND_ONLY, MACHINE_STATE_SUSPEND)
              && t.em.awaiting == t.em.registered == {"k"}
              && forall e: Event :: e in served ==> !e.Report? && (e.ConfirmComponent? ==> e.component != "k")
  {
    var c, s := SUSPEND_ONLY, Init(SUSPEND_ONLY);
    var t := StrayConfirmServed();
    var served := PRELUDE + [STRAY];
    SuspendStarted(t);
    var t3 := t.(em := t.em.(pending := MACHINE_STATE_SUSPEND, calls := [Start("a")]), worker := Switching);
    LeadsTo(c, s, t, t3, served, []);
    assert served + [] == served;
    var t5 := SuspendCommitted(t3);
    LeadsTo(c, s, t3, t5, served, []);
  }

  // ------------------------------------------------------------ the mailbox

  const STARTUP_FIRST :=
    Config(map[MACHINE_STATE_STARTUP := {"msm"}], [MACHINE_STATE_STARTUP, MACHINE_STATE_RUNNING])

  lemma StartupAccepted() returns (t: State)
    ensures t == State(Em({}, STARTUP_FIRST.supported, "", MACHINE_STATE_STARTUP, "", {}, {}, [], false, false, []),
                       [], -1, PlanningKills)
    ensures Leads(STARTUP_FIRST, Init(STARTUP_FIRST), t, [])
  {
    var c, s := STARTUP_FIRST, Init(STARTUP_FIRST);
    assert Filtered(c) == c.supported;
    LeadsNowhere(c, s);
    LeadsWork(c, s, s, [], Pop);
    var s1 := s.(queue := [], worker := Resetting(MACHINE_STATE_STARTUP));
    assert Next(c, s, Pop) == s1;
    CheckRun(c, s1, MACHINE_STATE_STARTUP);
    t := s1.(em := s1.em.(pending := MACHINE_STATE_STARTUP), worker := PlanningKills);
    assert c.states[0] == MACHINE_STATE_STARTUP;
    LeadsTo(c, s, s1, t, [], []);
  }

  // Starting-up with its msm process started and seen alive, not yet reported running.
  lemma StartupStarted() returns (t: State)
    ensures t == State(Em({}, STARTUP_FIRST.supported, "", MACHINE_STATE_STARTUP, "", {}, {}, [], false, false,
                          [Start("msm")]), [], -1, Switching)
    ensures Leads(STARTUP_FIRST, Init(STARTUP_FIRST), t, [])
  {
    var c, s := STARTUP_FIRST, Init(STARTUP_FIRST);
    var s1 := StartupAccepted();
    assert Range<string>([]) == {};
    KillRun(c, s1, []);
    var s2 := s1.(worker := PlanningStarts);
    assert AfterKills(s1.em, []) == s1.em;
    LeadsTo(c, s, s1, s2, [], []);
    var alive: seq<set<string>> := [{"msm"}, {}, {}, {}, {}, {}];
    assert Range(["msm"]) == {"msm"};
    assert Lookup(s2.em.allowed, s2.em.pending) - s2.em.active == {"msm"};
    assert NamesMsm("msm") by { assert "msm"[0..][..3] == "msm"; }
    assert SeesMsm({"msm"}, alive[0]);
    StartRun(c, s2, ["msm"], alive, 0, true);
    t := s2.(em := AfterStarts(s2.em, ["msm"]), worker := Switching);
    assert s2.em.calls + P.StartCalls(["msm"]) == [Start("msm")];
    LeadsTo(c, s, s2, t, [], []);
  }

  // From there, with the msm process registered and reporting, to the commit.
  lemma StartupCommitted(s: State) returns (t: State)
    requires s == State(Em({}, STARTUP_FIRST.supported, "", MACHINE_STATE_STARTUP, "", {}, {}, [], false, false,
                           [Start("msm")]), [], 1, Switching)
    ensures t.worker.Idle? && t.em.current == MACHINE_STATE_STARTUP && t.queue == [] && t.msmPid == 1
    ensures Q.ConfirmCount(t.em.calls) == 1
    ensures Leads(STARTUP_FIRST, s, t, [Report("msm", Running)])
  {
    var c := STARTUP_FIRST;
    var served := [Report("msm", Running)];
    LeadsNowhere(c, s);
    LeadsOn(c, s, s, [], served[0]);
    var s1 := s.(em := s.em.(active := {"msm"}));
    assert Next(c, s, served[0]) == s1;
    assert [] + served == served && served + [] == served;
    ChangeRun(c, s1);
    var s2 := s1.(em := SampleActiveSet(AfterChange(s1.em)), worker := WaitHead);
    LeadsTo(c, s, s1, s2, served, []);
    CommitRun(c, s2);
    t := s2.(em := AfterCommit(s2.em), worker := Idle);
    LeadsTo(c, s, s2, t, served, []);
    assert s2.em.calls == [Start("msm")];
    Q.ConfirmCountAppend([Start("msm")], [ConfirmTransition(Success)]);
    assert [ConfirmTransition(Success)][..0] == [];
    assert [Start("msm")][..0] == [];
  }

  lemma PairSplits(c: Config, p: Pair, es: seq<PairEvent>, e: PairEvent)
    requires PairValid(c, p, es + [e])
    ensures PairValid(c, p, es) && CanPair(PairAfter(c, p, es), e)
    ensures PairAfter(c, p, es + [e]) == PairNext(c, PairAfter(c, p, es), e)
  {
    assert (es + [e])[..|es|] == es;
  }

  lemma {:induction false} PairAppend(c: Config, p: Pair, a: seq<PairEvent>, b: seq<PairEvent>)
    requires PairValid(c, p, a) && PairValid(c, PairAfter(c, p, a), b)
    ensures PairValid(c, p, a + b) && PairAfter(c, p, a + b) == PairAfter(c, PairAfter(c, p, a), b)
  {
    if b == [] {
      assert a + b == a;
    } else {
      var b', e := b[..|b| - 1], b[|b| - 1];
      var q := PairAfter(c, p, a);
      assert b == b' + [e];
      PairSplits(c, q, b', e);
      PairAppend(c, p, a, b');
      PairGrows(c, p, a + b', e);
      assert a + b == a + b' + [e];
    }
  }

  // A run of the core alone, seen in the pair.
  lemma {:induction false} CoreAlone(c: Config, p: Pair, cs: seq<Event>) returns (es: seq<PairEvent>)
    requires ValidFrom(c, p.core, cs) && !p.client.Asking?
    ensures PairValid(c, p, es) && PairAfter(c, p, es) == p.(core := After(c, p.core, cs))
  {
    if cs == [] {
      es := [];
    } else {
      es := CoreAlone(c, p, cs[..|cs| - 1]);
      PairGrows(c, p, es, CoreStep(cs[|cs| - 1]));
      es := es + [CoreStep(cs[|cs| - 1])];
    }
  }

  // Starting-up committed and confirmed to a client that registered meanwhile and asked for nothing.
  lemma StartupConfirmed() returns (es: seq<PairEvent>, t: State)
    ensures PairValid(STARTUP_FIRST, PairInit(STARTUP_FIRST), es)
    ensures PairAfter(STARTUP_FIRST, PairInit(STARTUP_FIRST), es)
         == Pair(t, BoxNext(NEW_BOX, Deliver(Success)), 1, Free)
    ensures t.em.current == MACHINE_STATE_STARTUP && t.queue == [] && t.msmPid == 1
  {
    var c, p := STARTUP_FIRST, PairInit(STARTUP_FIRST);
    var s := StartupStarted();
    var cs :| LeadsBy(c, Init(c), s, [], cs);
    es := CoreAlone(c, p, cs);
    PairGrows(c, p, es, Connect(1, "MSM"));
    es := es + [Connect(1, "MSM")];
    var s1 := s.(msmPid := 1);
    t := StartupCommitted(s1);
    var ds :| LeadsBy(c, s1, t, [Report("msm", Running)], ds);
    var q := Pair(s1, NEW_BOX, 0, Free);
    var fs := CoreAlone(c, q, ds);
    PairAppend(c, p, es, fs);
    es := es + fs;
    PairGrows(c, p, es, Carry);
    es := es + [Carry];
  }

  // The confirm of Starting-up, which no request of the Machine State Manager asked for, stays in
  // the mailbox and answers its first request: a success for Running with Running still queued.
  lemma StartupConfirmAnswersFirstRequest()
    ensures exists es ::
              && PairValid(STARTUP_FIRST, PairInit(STARTUP_FIRST), es)
              && var p := PairAfter(STARTUP_FIRST, PairInit(STARTUP_FIRST), es);
              && p.box.obtained == [Success]
              && p.core.queue == [MACHINE_STATE_RUNNING]
              && p.core.em.current == MACHINE_STATE_STARTUP
  {
    var c, p := STARTUP_FIRST, PairInit(STARTUP_FIRST);
    var es, t := StartupConfirmed();
    var q := PairAfter(c, p, es);
    var fs, r := AskAndBegin(c, q, 1, MACHINE_STATE_RUNNING);
    fs := TakeAndRenew(c, q, fs, r);
    PairAppend(c, p, es, fs);
    assert PairValid(c, p, es + fs);
  }
}
