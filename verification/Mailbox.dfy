// The Machine State Manager's side of a confirmation: a promise that holds one value.
module Mailbox {
  import opened Types
  import opened Protocol
  import Q = Sequencing

  datatype Wait = Away | Waiting | Got(value: StateError)

  // slot: the promise's value; retrieved: its future has been taken. accepted and obtained record
  // the confirmations it has kept and the results handed to the requester.
  datatype Box = Box(slot: Option<StateError>, retrieved: bool, wait: Wait,
                     accepted: seq<StateError>, obtained: seq<StateError>)

  datatype BoxEvent =
    | Deliver(status: StateError)  // confirmStateTransition
    | BeginWait                    // get_future
    | TimeOut                      // wait_for ran out
    | Take                         // future.get
    | Renew                        // a new promise; the result is returned

  const NEW_BOX := Box(None, false, Away, [], [])

  predicate CanBox(b: Box, e: BoxEvent) {
    match e
    case Deliver(_) => true
    case BeginWait => b.wait.Away?
    case TimeOut => b.wait.Waiting? && b.slot.None?
    case Take => b.wait.Waiting? && b.slot.Some?
    case Renew => b.wait.Got?
  }

  // set_value on a satisfied promise and get_future on a retrieved one throw and change nothing.
  function BoxNext(b: Box, e: BoxEvent): Box
    requires CanBox(b, e)
  {
    match e
    case Deliver(v) => if b.slot.Some? then b else b.(slot := Some(v), accepted := b.accepted + [v])
    case BeginWait => if b.retrieved then b else b.(retrieved := true, wait := Waiting)
    case TimeOut => b.(wait := Away)
    case Take => b.(wait := Got(b.slot.value))
    case Renew =>
      b.(slot := None, retrieved := false, wait := Away, obtained := b.obtained + [b.wait.value])
  }

  predicate BoxValid(b: Box, es: seq<BoxEvent>)
    decreases |es|, 0
  {
    es == [] || (BoxValid(b, es[..|es| - 1]) && CanBox(BoxAfter(b, es[..|es| - 1]), es[|es| - 1]))
  }

  function BoxAfter(b: Box, es: seq<BoxEvent>): Box
    requires BoxValid(b, es)
    decreases |es|, 1
  {
    if es == [] then b else BoxNext(BoxAfter(b, es[..|es| - 1]), es[|es| - 1])
  }

  function Delivered(es: seq<BoxEvent>): seq<StateError> {
    if es == [] then []
    else Delivered(es[..|es| - 1]) + if es[|es| - 1].Deliver? then [es[|es| - 1].status] else []
  }

  // Kept confirmations are the obtained ones and the one still in the slot.
  predicate Conserved(b: Box) {
    && b.accepted == b.obtained + (if b.slot.Some? then [b.slot.value] else [])
    && (b.wait.Got? ==> b.slot == Some(b.wait.value))
    && (!b.wait.Away? ==> b.retrieved)
  }

  lemma BoxStep(b: Box, e: BoxEvent)
    requires Conserved(b) && CanBox(b, e)
    ensures Conserved(BoxNext(b, e))
    ensures BoxNext(b, e).accepted == b.accepted
            || (e.Deliver? && BoxNext(b, e).accepted == b.accepted + [e.status])
  {
    if e.Renew? {
      assert b.obtained + [b.wait.value] + [] == b.obtained + [b.wait.value];
    }
  }

  // Every obtained result is a delivered confirmation of its own, in delivery order.
  lemma {:induction false} ObtainedAreDelivered(es: seq<BoxEvent>)
    requires BoxValid(NEW_BOX, es)
    ensures var b := BoxAfter(NEW_BOX, es);
            && Conserved(b) && b.obtained <= b.accepted
            && Subsequence(b.accepted, Delivered(es)) && Subsequence(b.obtained, Delivered(es))
  {
    var b := BoxAfter(NEW_BOX, es);
    if es == [] {
      assert Embeds([], b.accepted, Delivered(es));
      assert b.accepted == b.obtained;
    } else {
      var n := |es| - 1;
      var p := BoxAfter(NEW_BOX, es[..n]);
      ObtainedAreDelivered(es[..n]);
      BoxStep(p, es[n]);
      if es[n].Deliver? {
        Q.SubsequenceExtends(p.accepted, Delivered(es[..n]), es[n].status);
      } else {
        assert Delivered(es) == Delivered(es[..n]);
      }
      SubsequencePrefix(b.obtained, b.accepted, Delivered(es));
    }
  }

  // A timed-out wait is final: the promise whose future it took is never replaced, so every later
  // wait throws and nothing is obtained any more.
  lemma {:induction false} TimeOutIsFinal(b: Box, es: seq<BoxEvent>)
    requires CanBox(b, TimeOut) && Conserved(b)
    requires BoxValid(BoxNext(b, TimeOut), es)
    ensures var d := BoxAfter(BoxNext(b, TimeOut), es);
            d.obtained == b.obtained && d.retrieved && d.wait.Away?
  {
    if es != [] {
      TimeOutIsFinal(b, es[..|es| - 1]);
    }
  }

  // get_future throws on a promise whose future has been taken.
  predicate WaitThrows(b: Box) { b.retrieved }

  // Whoever may wait finds the future taken if and only if an earlier wait timed out.
  lemma {:induction false} WaitThrowsIffOneTimedOut(es: seq<BoxEvent>)
    requires BoxValid(NEW_BOX, es)
    ensures var b := BoxAfter(NEW_BOX, es);
            && (CanBox(b, BeginWait) ==> (WaitThrows(b) <==> TimeOut in es))
            && (TimeOut in es ==> CanBox(b, BeginWait))
            && (TimeOut !in es ==> (b.retrieved <==> !b.wait.Away?))
  {
    if es != [] {
      var n := |es| - 1;
      WaitThrowsIffOneTimedOut(es[..n]);
      assert es == es[..n] + [es[n]];
    }
  }

  // ------------------------------------------------------------ with the Execution Manager

  // What the client is doing: not yet registered, free, or with a request sent and no wait begun.
  datatype Client = Unregistered | Free | Asking

  // carried: confirms of the core that have left the connection, delivered or lost.
  datatype Pair = Pair(core: State, box: Box, carried: nat, client: Client)

  datatype PairEvent =
    | CoreStep(event: Event)
    | Connect(pid: int, name: string)  // Register, which also starts the client's server
    | Ask(pid: int, state: string)     // SetMachineState sends its request
    | Begin                            // ... and, answered, begins its wait
    | GiveUp                           // ... or, timed out or failed, returns without one
    | Local(local: BoxEvent)           // the wait goes on
    | Carry                            // a confirm reaches the client's server
    | Lose                             // a confirm is lost

  predicate CanPair(p: Pair, e: PairEvent) {
    match e
    case CoreStep(ev) => Enabled(p.core, ev)
    case Connect(_, _) => p.client.Unregistered?
    case Ask(_, _) => p.client.Free? && p.box.wait.Away?
    case Begin => p.client.Asking?
    case GiveUp => p.client.Asking?
    case Local(l) => !l.Deliver? && !l.BeginWait? && CanBox(p.box, l)
    case Carry => !p.client.Unregistered? && p.carried < Q.ConfirmCount(p.core.em.calls)
    case Lose => p.carried < Q.ConfirmCount(p.core.em.calls)
  }

  predicate PairInv(p: Pair) {
    && Conserved(p.box) && |p.box.accepted| <= p.carried <= Q.ConfirmCount(p.core.em.calls)
    && (p.client.Asking? ==> p.box.wait.Away?)
  }

  // The Execution Manager confirms with success only.
  function PairNext(c: Config, p: Pair, e: PairEvent): Pair
    requires CanPair(p, e)
    requires p.client.Asking? ==> p.box.wait.Away?
  {
    match e
    case CoreStep(ev) => p.(core := Next(c, p.core, ev))
    case Connect(pid, name) => p.(core := Next(c, p.core, RegisterMsm(pid, name)), client := Free)
    case Ask(pid, st) => p.(core := Next(c, p.core, Request(pid, st)), client := Asking)
    case Begin => p.(box := BoxNext(p.box, BeginWait), client := Free)
    case GiveUp => p.(client := Free)
    case Local(l) => p.(box := BoxNext(p.box, l))
    case Carry => p.(box := BoxNext(p.box, Deliver(Success)), carried := p.carried + 1)
    case Lose => p.(carried := p.carried + 1)
  }

  function PairInit(c: Config): Pair {
    Pair(Init(c), NEW_BOX, 0, Unregistered)
  }

  predicate PairValid(c: Config, p: Pair, es: seq<PairEvent>)
    decreases |es|, 0
  {
    (p.client.Asking? ==> p.box.wait.Away?) &&
    (es == [] ||
     (PairValid(c, p, es[..|es| - 1]) && CanPair(PairAfter(c, p, es[..|es| - 1]), es[|es| - 1])))
  }

  function PairAfter(c: Config, p: Pair, es: seq<PairEvent>): (q: Pair)
    requires PairValid(c, p, es)
    ensures q.client.Asking? ==> q.box.wait.Away?
    decreases |es|, 1
  {
    if es == [] then p else PairNext(c, PairAfter(c, p, es[..|es| - 1]), es[|es| - 1])
  }

  lemma ConfirmsStay(c: Config, s: State, e: Event)
    requires Enabled(s, e)
    ensures Q.ConfirmCount(Next(c, s, e).em.calls)
         == Q.ConfirmCount(s.em.calls) + if e.SendConfirm? then 1 else 0
  {
    Q.ConfirmStep(c, s, e);
  }

  // Confirms kept by the client or still on their way: they grow only when one is sent.
  function Known(p: Pair): int {
    |p.box.accepted| + Q.ConfirmCount(p.core.em.calls) - p.carried
  }

  predicate SendsConfirm(e: PairEvent) {
    e.CoreStep? && e.event.SendConfirm?
  }

  lemma PairStep(c: Config, p: Pair, e: PairEvent)
    requires PairInv(p) && CanPair(p, e)
    ensures PairInv(PairNext(c, p, e))
    ensures !SendsConfirm(e) ==> Known(PairNext(c, p, e)) <= Known(p)
    ensures (forall v :: v in p.box.accepted ==> v == Success) ==>
              forall v :: v in PairNext(c, p, e).box.accepted ==> v == Success
  {
    match e
    case CoreStep(ev) => ConfirmsStay(c, p.core, ev);
    case Connect(pid, name) => ConfirmsStay(c, p.core, RegisterMsm(pid, name));
    case Ask(pid, st) => ConfirmsStay(c, p.core, Request(pid, st));
    case Begin => BoxStep(p.box, BeginWait);
    case GiveUp =>
    case Local(l) => BoxStep(p.box, l);
    case Carry => BoxStep(p.box, Deliver(Success));
    case Lose =>
  }

  // What the step is to the core.
  function CoreEvents(e: PairEvent): seq<Event> {
    match e
    case CoreStep(ev) => [ev]
    case Connect(pid, name) => [RegisterMsm(pid, name)]
    case Ask(pid, st) => [Request(pid, st)]
    case _ => []
  }

  lemma CoreMoves(c: Config, p: Pair, e: PairEvent)
    requires CanPair(p, e) && (p.client.Asking? ==> p.box.wait.Away?)
    ensures var cs := CoreEvents(e);
            if cs == [] then PairNext(c, p, e).core == p.core
            else Enabled(p.core, cs[0]) && PairNext(c, p, e).core == Next(c, p.core, cs[0])
    ensures SendsConfirm(e) <==> CoreEvents(e) != [] && CoreEvents(e)[0].SendConfirm?
  {
  }

  ghost predicate CoreReached(c: Config, s: State, cs: seq<Event>) {
    Run(c, cs) && Final(c, cs) == s
  }

  lemma CoreReachedOn(c: Config, s: State, cs: seq<Event>, e: Event)
    requires CoreReached(c, s, cs) && Enabled(s, e)
    ensures CoreReached(c, Next(c, s, e), cs + [e])
  {
    assert (cs + [e])[..|cs|] == cs;
  }

  // In every run prefix: results obtained never outnumber the confirmations carried, nor these the
  // confirms sent, and all are successes.
  lemma {:induction false} ResultsNeverOutnumberConfirms(c: Config, es: seq<PairEvent>)
    requires PairValid(c, PairInit(c), es)
    ensures var p := PairAfter(c, PairInit(c), es);
            && PairInv(p)
            && (exists cs :: CoreReached(c, p.core, cs))
            && |p.box.obtained| <= |p.box.accepted| <= p.carried <= Q.ConfirmCount(p.core.em.calls)
            && (forall v :: v in p.box.accepted ==> v == Success)
  {
    if es == [] {
      assert CoreReached(c, Init(c), []);
    } else {
      var n := |es| - 1;
      ResultsNeverOutnumberConfirms(c, es[..n]);
      var p, e := PairAfter(c, PairInit(c), es[..n]), es[n];
      PairStep(c, p, e);
      var cs :| CoreReached(c, p.core, cs);
      CoreMoves(c, p, e);
      if CoreEvents(e) != [] {
        CoreReachedOn(c, p.core, cs, CoreEvents(e)[0]);
      }
    }
  }

  // Hence successful requests are bounded by the commits made (and the one being confirmed).
  lemma SuccessesBoundedByCommits(c: Config, es: seq<PairEvent>)
    requires PairValid(c, PairInit(c), es)
    ensures exists cs ::
              && CoreReached(c, PairAfter(c, PairInit(c), es).core, cs)
              && |PairAfter(c, PairInit(c), es).box.obtained|
                 <= |Q.Commits(c, cs)| + if PairAfter(c, PairInit(c), es).core.worker.Committing? then 1 else 0
  {
    ResultsNeverOutnumberConfirms(c, es);
    var p := PairAfter(c, PairInit(c), es);
    var cs :| CoreReached(c, p.core, cs);
    Q.ConfirmsMatchCommits(c, cs);
  }

  // ------------------------------------------------------------ whose confirm a result is

  // A call of SetMachineState that obtains its result without any confirm being sent meanwhile:
  // es sends the request first and contains no sending of a confirm.
  ghost predicate AnswersStale(c: Config, p: Pair, pid: int, st: string, es: seq<PairEvent>) {
    && PairValid(c, p, es) && es != [] && es[0] == Ask(pid, st)
    && (forall e :: e in es ==> !SendsConfirm(e))
    && |PairAfter(c, p, es).box.obtained| > |p.box.obtained|
  }

  lemma {:induction false} KnownBounds(c: Config, p: Pair, es: seq<PairEvent>)
    requires PairInv(p) && PairValid(c, p, es) && forall e :: e in es ==> !SendsConfirm(e)
    ensures PairInv(PairAfter(c, p, es)) && Known(PairAfter(c, p, es)) <= Known(p)
  {
    if es != [] {
      var n := |es| - 1;
      assert forall e :: e in es[..n] ==> e in es;
      KnownBounds(c, p, es[..n]);
      assert es[n] in es;
      PairStep(c, PairAfter(c, p, es[..n]), es[n]);
    }
  }

  lemma PairGrows(c: Config, p: Pair, es: seq<PairEvent>, e: PairEvent)
    requires PairValid(c, p, es) && CanPair(PairAfter(c, p, es), e)
    ensures PairValid(c, p, es + [e])
    ensures PairAfter(c, p, es + [e]) == PairNext(c, PairAfter(c, p, es), e)
  {
    assert (es + [e])[..|es|] == es;
  }

  // The client may call SetMachineState and its wait will not throw.
  predicate MayAsk(p: Pair) {
    p.client.Free? && p.box.wait.Away? && !p.box.retrieved
  }

  // A request sent now, and the wait for it.
  lemma AskAndBegin(c: Config, p: Pair, pid: int, st: string) returns (es: seq<PairEvent>, q: Pair)
    requires MayAsk(p)
    ensures es == [Ask(pid, st), Begin] && PairValid(c, p, es) && PairAfter(c, p, es) == q
    ensures q == p.(core := Next(c, p.core, Request(pid, st)),
                    box := p.box.(retrieved := true, wait := Waiting))
  {
    PairGrows(c, p, [], Ask(pid, st));
    assert [] + [Ask(pid, st)] == [Ask(pid, st)];
    PairGrows(c, p, [Ask(pid, st)], Begin);
    es := [Ask(pid, st)] + [Begin];
    q := PairAfter(c, p, es);
  }

  // A waiting client whose slot is full obtains what is in it.
  lemma TakeAndRenew(c: Config, p: Pair, es: seq<PairEvent>, q: Pair) returns (es': seq<PairEvent>)
    requires PairValid(c, p, es) && PairAfter(c, p, es) == q && q.box.wait.Waiting? && q.box.slot.Some?
    ensures es' == es + [Local(Take), Local(Renew)] && PairValid(c, p, es')
    ensures PairAfter(c, p, es').core == q.core
    ensures PairAfter(c, p, es').box.obtained == q.box.obtained + [q.box.slot.value]
  {
    PairGrows(c, p, es, Local(Take));
    PairGrows(c, p, es + [Local(Take)], Local(Renew));
    es' := es + [Local(Take)] + [Local(Renew)];
    assert es' == es + [Local(Take), Local(Renew)];
  }

  predicate Outstanding(p: Pair) {
    p.box.slot.Some? || p.carried < Q.ConfirmCount(p.core.em.calls)
  }

  // A request can be answered by a confirm that was sent before it if and only if, when it is made,
  // a confirm lies in the slot or is still on its way. Otherwise every result comes from a confirm
  // sent after the request.
  lemma StaleAnswerIffOutstanding(c: Config, p: Pair, pid: int, st: string)
    requires PairInv(p) && MayAsk(p)
    ensures (exists es :: AnswersStale(c, p, pid, st, es)) <==> Outstanding(p)
  {
    if es :| AnswersStale(c, p, pid, st, es) {
      KnownBounds(c, p, es);
    }
    if Outstanding(p) {
      var es := AnsweredByOutstanding(c, p, pid, st);
    }
  }

  // The events of the client's own wait and of confirms on their way.
  predicate ClientSide(e: PairEvent) {
    !e.CoreStep? && !e.Connect? && !e.Ask?
  }

  lemma AnsweredByOutstanding(c: Config, p: Pair, pid: int, st: string) returns (es: seq<PairEvent>)
    requires PairInv(p) && MayAsk(p) && Outstanding(p)
    ensures AnswersStale(c, p, pid, st, es) && forall e :: e in es[1..] ==> ClientSide(e)
  {
    var q;
    es, q := AskAndBegin(c, p, pid, st);
    if p.box.slot.None? {
      ConfirmsStay(c, p.core, Request(pid, st));
      PairGrows(c, p, es, Carry);
      es, q := es + [Carry], PairNext(c, q, Carry);
    }
    es := TakeAndRenew(c, p, es, q);
    assert AnswersStale(c, p, pid, st, es);
  }

  // The client object: the server thread sets the promise, the requester waits on it.
  class MachineStateClient {
    var slot: Option<StateError>
    var retrieved: bool
    ghost var wait: Wait
    ghost var accepted: seq<StateError>
    ghost var obtained: seq<StateError>

    ghost function View(): Box
      reads this
    {
      Box(slot, retrieved, wait, accepted, obtained)
    }

    constructor ()
      ensures View() == NEW_BOX
    {
      slot, retrieved, wait, accepted, obtained := None, false, Away, [], [];
    }

    method ConfirmStateTransition(status: StateError)
      modifies this`slot, this`accepted
      ensures View() == BoxNext(old(View()), Deliver(status))
    {
      if slot.None? {
        slot, accepted := Some(status), accepted + [status];
      }
    }

    // waitForConfirm; arriving are the confirmations that come in during the wait, late those that
    // come in between reading the value and renewing the promise. No result: get_future threw.
    method WaitForConfirm(arriving: seq<StateError>, late: seq<StateError>)
      returns (r: Option<StateError>, timedOut: bool, ghost es: seq<BoxEvent>)
      requires wait.Away?
      modifies this
      ensures wait.Away? && BoxLeads(old(View()), es, View())
      ensures r == None <==> old(retrieved)
      ensures timedOut <==> !old(retrieved) && old(slot) == None && arriving == []
      ensures retrieved <==> old(retrieved) || timedOut
      ensures timedOut ==> r == Some(Timeout) && slot == None
      ensures r.Some? && !timedOut ==>
                r == (if old(slot).Some? then old(slot) else Some(arriving[0])) && slot == None
      ensures obtained == if r.Some? && !timedOut then old(obtained) + [r.value] else old(obtained)
      ensures Delivered(es) == if r.None? || timedOut then [] else arriving + late
    {
      ghost var b := View();
      es := [BeginWait];
      BoxLeadsNowhere(b);
      BoxLeadsOn(b, [], b, BeginWait);
      assert [] + [BeginWait] == [BeginWait];
      if retrieved {
        return None, false, es;
      }
      retrieved, wait := true, Waiting;
      es := DeliverAll(b, es, arriving);
      if slot.None? {
        BoxLeadsOn(b, es, View(), TimeOut);
        wait := Away;
        assert arriving == [] && Delivered(es) == [];
        return Some(Timeout), true, es + [TimeOut];
      }
      r := slot;
      BoxLeadsOn(b, es, View(), Take);
      wait := Got(slot.value);
      es := DeliverAll(b, es + [Take], late);
      BoxLeadsOn(b, es, View(), Renew);
      obtained := obtained + [r.value];
      slot, retrieved, wait := None, false, Away;
      es := es + [Renew];
      timedOut := false;
    }

    method DeliverAll(ghost b: Box, ghost before: seq<BoxEvent>, statuses: seq<StateError>)
      returns (ghost es: seq<BoxEvent>)
      requires BoxLeads(b, before, View())
      modifies this`slot, this`accepted
      ensures BoxLeads(b, es, View()) && Delivered(es) == Delivered(before) + statuses
      ensures slot == if old(slot).Some? then old(slot) else if statuses == [] then None else Some(statuses[0])
    {
      es := before;
      for i := 0 to |statuses|
        invariant BoxLeads(b, es, View()) && Delivered(es) == Delivered(before) + statuses[..i]
        invariant slot == if old(slot).Some? then old(slot) else if i == 0 then None else Some(statuses[0])
      {
        BoxLeadsOn(b, es, View(), Deliver(statuses[i]));
        assert statuses[..i + 1] == statuses[..i] + [statuses[i]];
        ConfirmStateTransition(statuses[i]);
        es := es + [Deliver(statuses[i])];
      }
      assert statuses[..|statuses|] == statuses;
    }
  }

  ghost predicate BoxLeads(b: Box, es: seq<BoxEvent>, d: Box) {
    BoxValid(b, es) && BoxAfter(b, es) == d
  }

  lemma BoxLeadsNowhere(b: Box)
    ensures BoxLeads(b, [], b)
  {
  }

  lemma BoxLeadsOn(b: Box, es: seq<BoxEvent>, d: Box, e: BoxEvent)
    requires BoxLeads(b, es, d) && CanBox(d, e)
    ensures BoxLeads(b, es + [e], BoxNext(d, e))
    ensures Delivered(es + [e]) == Delivered(es) + if e.Deliver? then [e.status] else []
  {
    assert (es + [e])[..|es|] == es;
  }
}
