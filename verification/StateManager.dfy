// The Machine State Manager: which machine states it asks for, over one boot and the next.
module StateManager {
  import opened Types
  import opened Storage
  import opened Mailbox

  const STATE_KEY := "state"

  // std::queue behind a lock; the socket server pushes, the request loop pops.
  class SafeQueue {
    var data: seq<string>

    constructor ()
      ensures data == []
    {
      data := [];
    }

    method Push(value: string)
      modifies this
      ensures data == old(data) + [value]
    {
      data := data + [value];
    }

    method Pop() returns (ok: bool, payload: string)
      modifies this
      ensures ok <==> old(data) != []
      ensures if ok then [payload] + data == old(data) else data == old(data)
    {
      payload := "";
      ok := data != [];
      if ok {
        payload := data[0];
        data := data[1..];
      }
    }
  }

  // The states offered to the loop: the persisted one, unless it is Shuttingdown, then the inputs.
  function Candidates(firstRun: bool, last: Kvs, inputs: seq<string>): seq<string> {
    if firstRun && last.KString? && last.value != MACHINE_STATE_SHUTTINGDOWN then [last.value] + inputs
    else inputs
  }

  function OnlyAvailable(s: seq<string>, available: seq<string>): seq<string> {
    if s == [] then []
    else (if s[0] in available then [s[0]] else []) + OnlyAvailable(s[1..], available)
  }

  // Cut at, and including, the first Shuttingdown.
  function ThroughShutdown(s: seq<string>): seq<string> {
    if s == [] then []
    else if s[0] == MACHINE_STATE_SHUTTINGDOWN then [s[0]]
    else [s[0]] + ThroughShutdown(s[1..])
  }

  function Requests(available: seq<string>, candidates: seq<string>): seq<string> {
    ThroughShutdown(OnlyAvailable(candidates, available))
  }

  // The cut is a prefix whose only Shuttingdown, if it has one, is its last element.
  lemma {:induction false} ThroughShutdownMeaning(s: seq<string>)
    ensures ThroughShutdown(s) <= s
    ensures forall i :: 0 <= i < |ThroughShutdown(s)| - 1 ==> s[i] != MACHINE_STATE_SHUTTINGDOWN
    ensures if MACHINE_STATE_SHUTTINGDOWN in s
            then ThroughShutdown(s) != [] && s[|ThroughShutdown(s)| - 1] == MACHINE_STATE_SHUTTINGDOWN
            else ThroughShutdown(s) == s
  {
    if s != [] && s[0] != MACHINE_STATE_SHUTTINGDOWN {
      ThroughShutdownMeaning(s[1..]);
      var t := ThroughShutdown(s[1..]);
      assert s == [s[0]] + s[1..];
      assert [s[0]] + t <= s;
      assert forall x :: x in s <==> x == s[0] || x in s[1..];
      forall i | 0 <= i < |t| ensures s[i] != MACHINE_STATE_SHUTTINGDOWN {
        if i > 0 { assert s[i] == s[1..][i - 1]; }
      }
    }
  }

  lemma SubsequencePrepends<T>(a: seq<T>, b: seq<T>, x: T)
    requires Subsequence(a, b)
    ensures Subsequence(a, [x] + b) && Subsequence([x] + a, [x] + b)
  {
    var f: seq<nat> :| Embeds(f, a, b);
    var g: seq<nat> := seq(|f|, i requires 0 <= i < |f| => f[i] + 1);
    assert Embeds(g, a, [x] + b);
    assert Embeds([0] + g, [x] + a, [x] + b);
  }

  lemma {:induction false} OnlyAvailableMeaning(s: seq<string>, available: seq<string>)
    ensures forall x :: x in OnlyAvailable(s, available) <==> x in s && x in available
    ensures forall x :: multiset(OnlyAvailable(s, available))[x] == if x in available then multiset(s)[x] else 0
    ensures Subsequence(OnlyAvailable(s, available), s)
  {
    if s == [] {
      assert Embeds([], OnlyAvailable(s, available), s);
    } else {
      var t := OnlyAvailable(s[1..], available);
      OnlyAvailableMeaning(s[1..], available);
      SubsequencePrepends(t, s[1..], s[0]);
      assert s == [s[0]] + s[1..];
      assert [] + t == t;
    }
  }

  lemma {:induction false} RequestsSkip(available: seq<string>, candidates: seq<string>)
    requires candidates != []
    ensures var x, r := candidates[0], Requests(available, candidates[1..]);
            Requests(available, candidates) ==
              if x !in available then r
              else if x == MACHINE_STATE_SHUTTINGDOWN then [x]
              else [x] + r
  {
    var x, t := candidates[0], OnlyAvailable(candidates[1..], available);
    assert [] + t == t;
    assert ([x] + t)[1..] == t;
  }

  // Without interruption the loop asks for Shuttingdown, and for nothing after it, exactly when an
  // available Shuttingdown is among the socket inputs.
  lemma RequestsEndIffShutdown(available: seq<string>, firstRun: bool, last: Kvs, inputs: seq<string>)
    ensures EndsInShutdown(Requests(available, Candidates(firstRun, last, inputs)))
            <==> MACHINE_STATE_SHUTTINGDOWN in available && MACHINE_STATE_SHUTTINGDOWN in inputs
  {
    var cs := Candidates(firstRun, last, inputs);
    OnlyAvailableMeaning(cs, available);
    ThroughShutdownMeaning(OnlyAvailable(cs, available));
  }

  predicate EndsInShutdown(rs: seq<string>) {
    rs != [] && rs[|rs| - 1] == MACHINE_STATE_SHUTTINGDOWN
  }

  // ------------------------------------------------------------ how the requests fare

  // What comes of a request: whether the call is answered, so that a wait begins, and the
  // confirmations that have come in since the one before (those that come in while a value is being
  // read are lost).
  datatype Reply =
    | Unanswered(arriving: seq<StateError>)
    | Answered(arriving: seq<StateError>)

  // A confirmation lies in the promise after these requests, if no wait has timed out.
  predicate Kept(replies: seq<Reply>) {
    replies != [] &&
    var r := replies[|replies| - 1];
    r.Unanswered? && (r.arriving != [] || Kept(replies[..|replies| - 1]))
  }

  // The wait for request j finds no confirmation.
  predicate Misses(replies: seq<Reply>, j: nat)
    requires j < |replies|
  {
    replies[j].Answered? && replies[j].arriving == [] && !Kept(replies[..j])
  }

  predicate MissedBefore(replies: seq<Reply>, k: nat)
    requires k <= |replies|
  {
    exists j: nat :: j < k && Misses(replies, j)
  }

  // The wait for request k finds the future of a timed-out wait taken.
  predicate Throws(replies: seq<Reply>, k: nat)
    requires k < |replies|
  {
    replies[k].Answered? && MissedBefore(replies, k)
  }

  // Why the request loop handed control back.
  datatype End =
    | Finished   // Shuttingdown was requested
    | Threw      // the last request's wait threw, which nothing catches
    | Blocked    // waiting for a socket input that has not come
    | Stopped    // the process was stopped after the last reply
    | Crashed    // the persisted entry is malformed

  // The loop that is to ask for rs has asked for the first n, and ended so.
  ghost predicate EndsSo(rs: seq<string>, replies: seq<Reply>, end: End, n: nat) {
    && n <= |rs| && n <= |replies|
    && (forall k: nat :: k + 1 < n ==> !Throws(replies, k))
    && (end.Threw? <==> n > 0 && Throws(replies, n - 1))
    && (end.Finished? <==> !end.Threw? && EndsInShutdown(rs[..n]))
    && (end.Blocked? ==> n == |rs| < |replies|)
    && (end.Stopped? ==> n == |replies|)
    && !end.Crashed?
  }

  // The requests and the replies determine how far the loop gets and how it ends.
  lemma EndIsDetermined(available: seq<string>, candidates: seq<string>, replies: seq<Reply>,
                        end: End, n: nat, end': End, n': nat)
    requires EndsSo(Requests(available, candidates), replies, end, n)
    requires EndsSo(Requests(available, candidates), replies, end', n')
    ensures end == end' && n == n'
  {
    ThroughShutdownMeaning(OnlyAvailable(candidates, available));
    var rs := Requests(available, candidates);
    assert n > 0 ==> rs[..n][n - 1] == rs[n - 1];
    assert n' > 0 ==> rs[..n'][n' - 1] == rs[n' - 1];
  }

  // Given an outcome for every request it may make, the loop finishes exactly when an available
  // Shuttingdown is among the inputs and no wait throws. When all calls are answered, that is:
  // when every request before the last is confirmed in time.
  lemma FinishesIffNoneMissed(available: seq<string>, firstRun: bool, last: Kvs, inputs: seq<string>,
                              replies: seq<Reply>, end: End, n: nat)
    requires var rs := Requests(available, Candidates(firstRun, last, inputs));
             |rs| <= |replies| && EndsSo(rs, replies, end, n)
    ensures var rs := Requests(available, Candidates(firstRun, last, inputs));
            var asked := MACHINE_STATE_SHUTTINGDOWN in available && MACHINE_STATE_SHUTTINGDOWN in inputs;
            && (end.Finished? <==> asked && forall k: nat :: k < |rs| ==> !Throws(replies, k))
            && ((forall k: nat :: k < |rs| ==> replies[k].Answered?) ==>
                  (end.Finished? <==> asked && forall k: nat :: k + 1 < |rs| ==> replies[k].arriving != []))
  {
    var cs := Candidates(firstRun, last, inputs);
    var rs := Requests(available, cs);
    RequestsEndIffShutdown(available, firstRun, last, inputs);
    ThroughShutdownMeaning(OnlyAvailable(cs, available));
    FinishesIff(rs, replies, end, n);
    if forall k: nat :: k < |rs| ==> replies[k].Answered? {
      NoneThrowsIffAllConfirmed(replies, |rs|);
    }
  }

  lemma FinishesIff(rs: seq<string>, replies: seq<Reply>, end: End, n: nat)
    requires |rs| <= |replies| && EndsSo(rs, replies, end, n)
    requires forall i :: 0 <= i < |rs| - 1 ==> rs[i] != MACHINE_STATE_SHUTTINGDOWN
    ensures end.Finished? <==> EndsInShutdown(rs) && forall k: nat :: k < |rs| ==> !Throws(replies, k)
  {
    if end.Finished? {
      assert rs[n - 1] == MACHINE_STATE_SHUTTINGDOWN && n == |rs|;
    }
    if n == |rs| {
      assert rs[..n] == rs;
    }
  }

  lemma NoneThrowsIffAllConfirmed(replies: seq<Reply>, n: nat)
    requires n <= |replies| && forall k: nat :: k < n ==> replies[k].Answered?
    ensures (forall k: nat :: k < n ==> !Throws(replies, k)) <==>
            (forall k: nat :: k + 1 < n ==> replies[k].arriving != [])
  {
    forall k: nat | k < n ensures Misses(replies, k) <==> replies[k].arriving == [] {
      assert k > 0 ==> replies[..k][k - 1].Answered?;
    }
    if k: nat :| k + 1 < n && replies[k].arriving == [] {
      assert Misses(replies, k) && Throws(replies, k + 1);
    }
  }

  // Running asked for twice, then Suspend and Shuttingdown: the loop finishes if a confirmation
  // comes for each of the first three. If one comes for the first but none for the second, it throws
  // at the third and never asks for Shuttingdown. The second is a request the manager refuses, so
  // that is its fate unless a confirm is outstanding.
  lemma RepeatedRequest(arriving: seq<seq<StateError>>, end: End, n: nat)
    requires |arriving| == 4 && arriving[0] != []
    requires EndsSo(Requests(REPEATED, REPEATED), seq(4, i requires 0 <= i < 4 => Answered(arriving[i])), end, n)
    ensures end == Finished && n == 4 <==> arriving[1] != [] && arriving[2] != []
    ensures end == Threw && n == 3 <==> arriving[1] == []
  {
    AllRequested();
    var replies := seq(4, i requires 0 <= i < 4 => Answered(arriving[i]));
    assert forall k: nat | 0 < k < 4 :: replies[..k][k - 1].Answered?;
    assert forall k: nat | k < 4 :: Misses(replies, k) <==> arriving[k] == [];
    assert !Throws(replies, 0) && !Throws(replies, 1);
    assert Throws(replies, 2) <==> arriving[1] == [];
    assert Throws(replies, 3) <==> arriving[1] == [] || arriving[2] == [];
  }

  lemma AllRequested()
    ensures Requests(REPEATED, REPEATED) == REPEATED
  {
    for k := 4 downto 0
      invariant Requests(REPEATED, REPEATED[k..]) == REPEATED[k..]
    {
      RequestsSkip(REPEATED, REPEATED[k..]);
      assert REPEATED[k..][1..] == REPEATED[k + 1..];
    }
  }

  const REPEATED := [MACHINE_STATE_RUNNING, MACHINE_STATE_RUNNING, MACHINE_STATE_SUSPEND, MACHINE_STATE_SHUTTINGDOWN]

  datatype NewState = Drawn(state: string) | Waits | Breaks

  class MachineStateManager {
    const available: seq<string>
    const provider: SafeQueue
    const storage: KeyValueStorage
    const client: MachineStateClient
    var firstRun: bool
    var sent: seq<string>

    ghost predicate Valid()
      reads this
    {
      var others: seq<object> := [provider, storage, client];
      this !in others && others[0] != others[1] && others[0] != others[2] && others[1] != others[2]
    }

    // What the loop has still to consider.
    ghost function Ahead(): Option<seq<string>>
      reads this, provider, storage
    {
      if !firstRun then Some(provider.data)
      else
        match Get(storage.data, STATE_KEY)
        case None => None
        case Some(last) => Some(Candidates(true, last, provider.data))
    }

    // On the first run that is the socket inputs when nothing or Shuttingdown is stored, and the
    // stored text before them otherwise; an entry of another form breaks. Later it is the inputs.
    lemma AheadReads()
      ensures !firstRun ==> Ahead() == Some(provider.data)
      ensures firstRun && !(storage.data.Obj? && "state" in storage.data.fields) ==> Ahead() == Some(provider.data)
      ensures forall st :: firstRun && Holds(storage.data, "state", st) ==>
                Ahead() == Some((if st == MACHINE_STATE_SHUTTINGDOWN then [] else [st]) + provider.data)
      ensures firstRun ==> (Ahead() == None <==>
                storage.data.Obj? && "state" in storage.data.fields
                && forall st :: !Holds(storage.data, "state", st))
    {
      GetReads(storage.data, "state");
      assert [] + provider.data == provider.data;
    }

    constructor (available: seq<string>, provider: SafeQueue, storage: KeyValueStorage, client: MachineStateClient)
      requires (provider as object) != storage && (provider as object) != client && (storage as object) != client
      ensures Valid() && firstRun && sent == [] && this.available == available
      ensures this.provider == provider && this.storage == storage && this.client == client
    {
      this.available, this.provider, this.storage, this.client := available, provider, storage, client;
      firstRun, sent := true, [];
    }

    // The persisted state on the first call, the next socket input on every other.
    method GetNewStateForStartRun() returns (r: NewState)
      requires Valid()
      modifies this`firstRun, provider
      ensures !firstRun
      ensures match old(Ahead())
              case None => r == Breaks
              case Some(cs) =>
                if cs == [] then r == Waits && Ahead() == Some([])
                else r == Drawn(cs[0]) && Ahead() == Some(cs[1..])
      ensures forall st :: old(firstRun) && Holds(storage.data, "state", st) && st != MACHINE_STATE_SHUTTINGDOWN ==>
                r == Drawn(st) && provider.data == old(provider.data)
      ensures !old(firstRun) || !(storage.data.Obj? && "state" in storage.data.fields)
              || Holds(storage.data, "state", MACHINE_STATE_SHUTTINGDOWN) ==>
                if old(provider.data) == [] then r == Waits
                else r == Drawn(old(provider.data)[0]) && provider.data == old(provider.data)[1..]
    {
      GetReads(storage.data, "state");
      if firstRun {
        firstRun := false;
        var last := storage.GetValue(STATE_KEY);
        if last == None {
          return Breaks;
        }
        if last.value.KString? && last.value.value != MACHINE_STATE_SHUTTINGDOWN {
          return Drawn(last.value.value);
        }
      }
      var ok, data := provider.Pop();
      r := if ok then Drawn(data) else Waits;
    }

    // Draws until a state of the machine manifest turns up.
    method GetNewState() returns (r: NewState)
      requires Valid()
      modifies this`firstRun, provider
      ensures r.Breaks? <==> old(Ahead()).None?
      ensures !r.Breaks? ==>
                && !firstRun && Ahead().Some? && old(Ahead()).Some?
                && match r
                   case Drawn(st) =>
                     && st in available
                     && Requests(available, old(Ahead()).value)
                        == [st] + (if st == MACHINE_STATE_SHUTTINGDOWN then []
                                   else Requests(available, Ahead().value))
                   case _ => Requests(available, old(Ahead()).value) == [] && Ahead() == Some([])
    {
      r := GetNewStateForStartRun();
      if old(Ahead()).Some? && old(Ahead()).value != [] {
        RequestsSkip(available, old(Ahead()).value);
      }
      while r.Drawn? && r.state !in available
        invariant !firstRun && (r.Breaks? <==> old(Ahead()).None?)
        invariant !r.Breaks? ==>
                    && Ahead().Some?
                    && match r
                       case Drawn(st) =>
                         Requests(available, old(Ahead()).value)
                         == if st !in available then Requests(available, Ahead().value)
                            else if st == MACHINE_STATE_SHUTTINGDOWN then [st]
                            else [st] + Requests(available, Ahead().value)
                       case _ => Requests(available, old(Ahead()).value) == [] && Ahead() == Some([])
        decreases |provider.data|, r.Drawn?
      {
        if provider.data != [] {
          RequestsSkip(available, provider.data);
        }
        var ok, data := provider.Pop();
        r := if ok then Drawn(data) else Waits;
      }
    }

    // An exception of the asynchronous save dies with its discarded future.
    method SaveReceivedState(state: string)
      requires Valid()
      modifies storage
      ensures (storage.data, storage.file) == Saved(old(storage.data), old(storage.file), state)
    {
      var ok := storage.SetValue(STATE_KEY, state);
      if ok {
        storage.SyncToStorage();
      }
    }

    // Asks for a state and, answered, waits for its confirmation.
    method SetMachineState(state: string, reply: Reply) returns (threw: bool)
      requires Valid() && client.wait.Away?
      modifies this`sent, client
      ensures sent == old(sent) + [state] && client.wait.Away?
      ensures threw <==> reply.Answered? && old(client.retrieved)
      ensures client.retrieved <==>
              old(client.retrieved) || (reply.Answered? && old(client.slot).None? && reply.arriving == [])
      ensures !client.retrieved ==>
                (client.slot.Some? <==> reply.Unanswered? && (old(client.slot).Some? || reply.arriving != []))
    {
      sent := sent + [state];
      threw := false;
      match reply
      case Unanswered(arriving) =>
        BoxLeadsNowhere(client.View());
        ghost var es := client.DeliverAll(client.View(), [], arriving);
      case Answered(arriving) =>
        var result, timedOut, es := client.WaitForConfirm(arriving, []);
        threw := result.None?;
    }

    // The client's promise and future are as these requests leave them.
    ghost predicate ClientAfter(replies: seq<Reply>, n: nat)
      requires n <= |replies|
      reads this, client
    {
      && client.wait.Away?
      && (client.retrieved <==> MissedBefore(replies, n))
      && (!client.retrieved ==> (client.slot.Some? <==> Kept(replies[..n])))
    }

    // What is still to be asked for is rs from n on.
    ghost predicate Left(rs: seq<string>, n: nat)
      reads this, provider, storage
    {
      Ahead().Some? && n <= |rs| && Requests(available, Ahead().value) == rs[n..]
    }

    // The first n of rs have been sent and saved since these were the values.
    ghost predicate Asked(rs: seq<string>, n: nat, sent0: seq<string>, data0: Json, file0: Option<Json>)
      requires n <= |rs|
      reads this, storage
    {
      sent == sent0 + rs[..n] && Persisted(data0, file0, rs[..n], storage.data, storage.file)
    }

    // One turn of the request loop: draw a state, save it, ask for it.
    method RequestOne(ghost rs: seq<string>, ghost replies: seq<Reply>, n: nat, reply: Reply,
                      ghost sent0: seq<string>, ghost data0: Json, ghost file0: Option<Json>)
      returns (r: NewState, threw: bool)
      requires Valid() && n <= |rs| && (Ahead().None? || Left(rs, n)) && Asked(rs, n, sent0, data0, file0)
      requires n < |replies| && reply == replies[n] && ClientAfter(replies, n)
      modifies this`firstRun, this`sent, provider, storage, client
      ensures r.Breaks? <==> old(Ahead()).None?
      ensures r.Waits? ==> n == |rs|
      ensures r.Drawn? ==>
                && n < |rs| && rs[n] == r.state && (r.state != MACHINE_STATE_SHUTTINGDOWN ==> Left(rs, n + 1))
                && (threw <==> Throws(replies, n)) && ClientAfter(replies, n + 1)
                && Asked(rs, n + 1, sent0, data0, file0)
      ensures !r.Drawn? ==>
                sent == old(sent) && storage.data == old(storage.data) && storage.file == old(storage.file)
    {
      threw := false;
      ghost var rest := if Ahead().Some? then rs[n..] else [];
      r := GetNewState();
      if r.Drawn? {
        DrawnNext(rs, n, rest, r.state);
        PersistedExtends(data0, file0, rs[..n], storage.data, storage.file, r.state);
        SaveReceivedState(r.state);
        ClientGoesOn(replies, n, client.retrieved, client.slot.Some?);
        threw := SetMachineState(r.state, reply);
      }
    }

    // Run::enter, stopped after the last of the replies if it lasts that long.
    method EnterRun(replies: seq<Reply>) returns (end: End, count: nat)
      requires Valid() && replies != []
      requires client.wait.Away? && client.slot.None? && !client.retrieved
      modifies this`firstRun, this`sent, provider, storage, client
      ensures !old(firstRun) || !(old(storage.data).Obj? && "state" in old(storage.data).fields) ==>
                old(Ahead()) == Some(old(provider.data))
      ensures forall st :: old(firstRun) && Holds(old(storage.data), "state", st) ==>
                old(Ahead()) == Some((if st == MACHINE_STATE_SHUTTINGDOWN then [] else [st]) + old(provider.data))
      ensures end.Crashed? <==> old(Ahead()).None?
      ensures end.Crashed? ==>
                && sent == old(sent) && storage.data == old(storage.data) && storage.file == old(storage.file)
      ensures !end.Crashed? ==>
                var rs := Requests(available, old(Ahead()).value);
                && EndsSo(rs, replies, end, count)
                && sent == old(sent) + rs[..count]
                && Persisted(old(storage.data), old(storage.file), rs[..count], storage.data, storage.file)
    {
      AheadReads();
      ghost var data0, file0, sent0, crashes := storage.data, storage.file, sent, Ahead().None?;
      ghost var rs := if Ahead().Some? then Requests(available, Ahead().value) else [];
      count := 0;
      assert sent + rs[..0] == sent;
      GoesOnOrEnds(rs, replies, 0);
      while count < |replies|
        invariant Valid() && GoesOn(rs, replies, count)
        invariant if crashes then Ahead().None? && count == 0 else Left(rs, count)
        invariant Asked(rs, count, sent0, data0, file0)
        invariant ClientAfter(replies, count)
      {
        var r, threw := RequestOne(rs, replies, count, replies[count], sent0, data0, file0);
        if r.Breaks? {
          return Crashed, 0;
        }
        if r.Waits? {
          return Blocked, count;
        }
        GoesOnOrEnds(rs, replies, count + 1);
        count := count + 1;
        if threw {
          return Threw, count;
        }
        if r.state == MACHINE_STATE_SHUTTINGDOWN {
          return Finished, count;
        }
      }
      return Stopped, count;
    }
  }

  // The loop has asked for the first n and none of them ended it.
  ghost predicate GoesOn(rs: seq<string>, replies: seq<Reply>, n: nat) {
    && n <= |rs| && n <= |replies|
    && (forall k: nat :: k < n ==> !Throws(replies, k))
    && (n > 0 ==> rs[n - 1] != MACHINE_STATE_SHUTTINGDOWN)
  }

  lemma GoesOnOrEnds(rs: seq<string>, replies: seq<Reply>, n: nat)
    requires n <= |rs| && n <= |replies| && (n > 0 ==> GoesOn(rs, replies, n - 1))
    ensures if n == 0 then GoesOn(rs, replies, n)
            else if Throws(replies, n - 1) then EndsSo(rs, replies, Threw, n)
            else if rs[n - 1] == MACHINE_STATE_SHUTTINGDOWN then EndsSo(rs, replies, Finished, n)
            else GoesOn(rs, replies, n)
    ensures GoesOn(rs, replies, n) && n == |rs| < |replies| ==> EndsSo(rs, replies, Blocked, n)
    ensures GoesOn(rs, replies, n) && n == |replies| ==> EndsSo(rs, replies, Stopped, n)
  {
    assert n > 0 ==> rs[..n][n - 1] == rs[n - 1];
  }

  lemma ClientGoesOn(replies: seq<Reply>, n: nat, retrieved: bool, full: bool)
    requires n < |replies| && (retrieved <==> MissedBefore(replies, n))
    requires !retrieved ==> (full <==> Kept(replies[..n]))
    ensures var r := replies[n];
            && (MissedBefore(replies, n + 1) <==> retrieved || (r.Answered? && !full && r.arriving == []))
            && (Kept(replies[..n + 1]) <==> r.Unanswered? && (Kept(replies[..n]) || r.arriving != []))
  {
    assert replies[..n + 1][..n] == replies[..n];
    assert MissedBefore(replies, n + 1) <==> MissedBefore(replies, n) || Misses(replies, n);
  }

  lemma DrawnNext(rs: seq<string>, count: nat, rest: seq<string>, st: string)
    requires count <= |rs| && rest == rs[count..] && rest != [] && rest[0] == st
    ensures count < |rs| && rs[count] == st && rs[..count + 1] == rs[..count] + [st]
    ensures rest[1..] == rs[count + 1..]
  {
  }

  // saveReceivedState on a tree and its file.
  function Saved(data: Json, file: Option<Json>, st: string): (Json, Option<Json>) {
    match Put(data, STATE_KEY, st)
    case Some(stored) => (stored, Some(stored))
    case None => (data, file)
  }

  // What saving the states of rs one after the other makes of the storage.
  ghost predicate Persisted(data: Json, file: Option<Json>, rs: seq<string>, data': Json, file': Option<Json>) {
    if rs == [] || !Storable(data) then data' == data && file' == file
    else
      && Storable(data') && file' == Some(data')
      && Get(data', STATE_KEY) == Some(KString(rs[|rs| - 1]))
  }

  lemma PersistedExtends(data: Json, file: Option<Json>, rs: seq<string>, data': Json, file': Option<Json>, st: string)
    requires Persisted(data, file, rs, data', file')
    ensures var (d, f) := Saved(data', file', st);
            Persisted(data, file, rs + [st], d, f)
  {
    SavedValueSurvivesReload(data', STATE_KEY, st);
  }

  // The next boot, with the same manifest: it first sends what was saved last, unless that was
  // Shuttingdown; after a finished run it sends socket inputs only.
  lemma RestartResumes(available: seq<string>, candidates: seq<string>, n: nat, inputs: seq<string>,
                       data: Json, file: Option<Json>, data': Json, file': Option<Json>)
    requires 0 < n <= |Requests(available, candidates)| && Storable(data)
    requires Persisted(data, file, Requests(available, candidates)[..n], data', file')
    ensures var saved := Requests(available, candidates)[n - 1];
            && Get(Load(file'), STATE_KEY) == Some(KString(saved))
            && Requests(available, Candidates(true, KString(saved), inputs)) == Resumed(available, saved, inputs)
  {
    var rs := Requests(available, candidates);
    var saved := rs[n - 1];
    assert rs[..n][n - 1] == saved && rs[..n] != [];
    RequestsAreAvailable(available, candidates, n - 1);
    SavedStateComesFirst(available, saved, inputs);
  }

  lemma SavedStateComesFirst(available: seq<string>, saved: string, inputs: seq<string>)
    requires saved in available
    ensures Requests(available, Candidates(true, KString(saved), inputs)) == Resumed(available, saved, inputs)
  {
    var cs := Candidates(true, KString(saved), inputs);
    if saved != MACHINE_STATE_SHUTTINGDOWN {
      RequestsSkip(available, cs);
      assert cs[1..] == inputs;
    } else {
      assert cs == inputs;
      assert [] + Requests(available, inputs) == Requests(available, inputs);
    }
  }

  // What a boot is to ask for when that state was saved last.
  function Resumed(available: seq<string>, saved: string, inputs: seq<string>): seq<string> {
    (if saved == MACHINE_STATE_SHUTTINGDOWN then [] else [saved]) + Requests(available, inputs)
  }

  lemma RequestsAreAvailable(available: seq<string>, candidates: seq<string>, i: nat)
    requires i < |Requests(available, candidates)|
    ensures Requests(available, candidates)[i] in available
  {
    var s := OnlyAvailable(candidates, available);
    OnlyAvailableMeaning(candidates, available);
    ThroughShutdownMeaning(s);
    assert s[i] in s;
  }

  // One boot: its socket inputs and replies, how it ended, what it asked for.
  datatype BootLog = BootLog(inputs: seq<string>, replies: seq<Reply>, end: End, sent: seq<string>)

  ghost predicate AsksFor(available: seq<string>, candidates: seq<string>, b: BootLog) {
    var rs := Requests(available, candidates);
    b.sent <= rs && EndsSo(rs, b.replies, b.end, |b.sent|)
  }

  ghost predicate BootFollows(available: seq<string>, offered: Option<Kvs>, b: BootLog) {
    match offered
    case None => b.end.Crashed? && b.sent == []
    case Some(last) => AsksFor(available, Candidates(true, last, b.inputs), b)
  }

  // What a boot on this file does: with nothing or Shuttingdown stored it asks for socket inputs,
  // with another text for that first; an entry of another form ends it.
  ghost predicate BootsFrom(available: seq<string>, file: Option<Json>, b: BootLog) {
    var stored := file.Some? && file.value.Obj? && "state" in file.value.fields;
    && (!stored ==> AsksFor(available, b.inputs, b))
    && (forall st :: stored && Holds(file.value, "state", st) ==>
          AsksFor(available, (if st == MACHINE_STATE_SHUTTINGDOWN then [] else [st]) + b.inputs, b))
    && (stored && (forall st :: !Holds(file.value, "state", st)) ==> b.end.Crashed? && b.sent == [])
  }

  lemma FollowsIsFrom(available: seq<string>, file: Option<Json>, b: BootLog)
    requires BootFollows(available, Get(Load(file), STATE_KEY), b)
    ensures BootsFrom(available, file, b)
  {
    GetReads(Load(file), "state");
    assert [] + b.inputs == b.inputs;
  }

  // A boot on a given file and socket inputs; the process is stopped after the last of the replies.
  method Boot(available: seq<string>, file: Option<Json>, inputs: seq<string>, replies: seq<Reply>)
    returns (end: End, sent: seq<string>, file': Option<Json>)
    requires replies != []
    ensures BootFollows(available, Get(Load(file), STATE_KEY), BootLog(inputs, replies, end, sent))
    ensures BootsFrom(available, file, BootLog(inputs, replies, end, sent))
    ensures exists data' :: Persisted(Load(file), file, sent, data', file')
  {
    var storage := new KeyValueStorage(file);
    var provider := new SafeQueue();
    for i := 0 to |inputs|
      invariant provider.data == inputs[..i] && storage.data == Load(file) && storage.file == file
    {
      provider.Push(inputs[i]);
    }
    assert inputs[..|inputs|] == inputs;
    var client := new MachineStateClient();
    assert client.View() == NEW_BOX;
    var msm := new MachineStateManager(available, provider, storage, client);
    ghost var ahead := msm.Ahead();
    assert ahead == match Get(Load(file), STATE_KEY)
                    case None => None
                    case Some(last) => Some(Candidates(true, last, inputs));
    var count;
    end, count := msm.EnterRun(replies);
    sent, file' := msm.sent, storage.file;
    if ahead.Some? {
      ghost var rs := Requests(available, ahead.value);
      assert sent == rs[..count];
    }
    FollowsIsFrom(available, file, BootLog(inputs, replies, end, sent));
    assert Persisted(Load(file), file, sent, storage.data, storage.file);
  }

  // ------------------------------------------------------------ boot after boot

  // The state asked for last in these boots.
  function LastSent(boots: seq<BootLog>): Option<string> {
    if boots == [] then None
    else
      var n := |boots| - 1;
      var sent := boots[n].sent;
      if sent == [] then LastSent(boots[..n]) else Some(sent[|sent| - 1])
  }

  // What the storage, first holding that file, offers the boot after these.
  function Offered(file: Option<Json>, boots: seq<BootLog>): Option<Kvs> {
    match LastSent(boots)
    case Some(st) => if Storable(Load(file)) then Some(KString(st)) else Get(Load(file), STATE_KEY)
    case None => Get(Load(file), STATE_KEY)
  }

  ghost predicate BootsFollow(available: seq<string>, file: Option<Json>, boots: seq<BootLog>) {
    forall k :: 0 <= k < |boots| ==> BootFollows(available, Offered(file, boots[..k]), boots[k])
  }

  lemma BootsGoOn(available: seq<string>, file: Option<Json>, boots: seq<BootLog>, b: BootLog)
    requires BootsFollow(available, file, boots) && BootFollows(available, Offered(file, boots), b)
    ensures BootsFollow(available, file, boots + [b])
  {
    var all := boots + [b];
    forall k | 0 <= k < |all| ensures BootFollows(available, Offered(file, all[..k]), all[k]) {
      assert all[..k] == boots[..k];
      assert k == |boots| ==> all[..k] == boots;
    }
  }

  lemma {:induction false} LastSentIsAvailable(available: seq<string>, file: Option<Json>, boots: seq<BootLog>)
    requires BootsFollow(available, file, boots) && LastSent(boots).Some?
    ensures LastSent(boots).value in available
  {
    var n := |boots| - 1;
    var b := boots[n];
    assert forall k | 0 <= k < n :: boots[..n][..k] == boots[..k];
    if b.sent == [] {
      LastSentIsAvailable(available, file, boots[..n]);
    } else {
      var offered := Offered(file, boots[..n]);
      assert BootFollows(available, offered, b);
      RequestsAreAvailable(available, Candidates(true, offered.value, b.inputs), |b.sent| - 1);
    }
  }

  // However many boots there were and whatever ended them: a boot asks first for the state that was
  // asked for last before, unless that is Shuttingdown, and then for socket inputs. As long as
  // nothing was asked for, or when the tree cannot hold it, the file as it was first decides.
  lemma EachBootResumes(available: seq<string>, file: Option<Json>, boots: seq<BootLog>, k: nat)
    requires BootsFollow(available, file, boots) && k < |boots|
    ensures var last, b := LastSent(boots[..k]), boots[k];
            if Storable(Load(file)) && last.Some? then
              var rs := (if last.value == MACHINE_STATE_SHUTTINGDOWN then [] else [last.value])
                        + Requests(available, b.inputs);
              b.sent <= rs && EndsSo(rs, b.replies, b.end, |b.sent|)
            else BootsFrom(available, file, b)
  {
    assert BootFollows(available, Offered(file, boots[..k]), boots[k]);
    if Storable(Load(file)) && LastSent(boots[..k]).Some? {
      assert forall i | 0 <= i < k :: boots[..k][..i] == boots[..i];
      LastSentIsAvailable(available, file, boots[..k]);
      SavedStateComesFirst(available, LastSent(boots[..k]).value, boots[k].inputs);
    } else {
      FollowsIsFrom(available, file, boots[k]);
    }
  }

  lemma StorageFollows(file: Option<Json>, boots: seq<BootLog>, b: BootLog, f: Option<Json>, data': Json, f': Option<Json>)
    requires Storable(Load(f)) <==> Storable(Load(file))
    requires Get(Load(f), STATE_KEY) == Offered(file, boots)
    requires Persisted(Load(f), f, b.sent, data', f')
    ensures Storable(Load(f')) <==> Storable(Load(file))
    ensures Get(Load(f'), STATE_KEY) == Offered(file, boots + [b])
  {
    assert (boots + [b])[..|boots|] == boots;
  }

  // Any number of boots on one storage file, each with its socket inputs and replies.
  method Boots(available: seq<string>, file: Option<Json>, runs: seq<(seq<string>, seq<Reply>)>)
    returns (boots: seq<BootLog>, file': Option<Json>)
    requires forall k :: 0 <= k < |runs| ==> runs[k].1 != []
    ensures |boots| == |runs|
    ensures forall k :: 0 <= k < |runs| ==> (boots[k].inputs, boots[k].replies) == runs[k]
    ensures BootsFollow(available, file, boots)
    ensures forall k :: 0 <= k < |boots| && (!Storable(Load(file)) || LastSent(boots[..k]) == None) ==>
              BootsFrom(available, file, boots[k])
    ensures Get(Load(file'), STATE_KEY) == Offered(file, boots)
  {
    boots, file' := [], file;
    for i := 0 to |runs|
      invariant |boots| == i
      invariant forall k :: 0 <= k < i ==> (boots[k].inputs, boots[k].replies) == runs[k]
      invariant BootsFollow(available, file, boots)
      invariant Storable(Load(file')) <==> Storable(Load(file))
      invariant Get(Load(file'), STATE_KEY) == Offered(file, boots)
    {
      var (inputs, replies) := runs[i];
      ghost var before := file';
      var end, sent;
      end, sent, file' := Boot(available, file', inputs, replies);
      var b := BootLog(inputs, replies, end, sent);
      ghost var data' :| Persisted(Load(before), before, sent, data', file');
      StorageFollows(file, boots, b, before, data', file');
      BootsGoOn(available, file, boots, b);
      boots := boots + [b];
    }
    forall k | 0 <= k < |boots| && (!Storable(Load(file)) || LastSent(boots[..k]) == None)
      ensures BootsFrom(available, file, boots[k])
    {
      EachBootResumes(available, file, boots, k);
    }
  }
}
