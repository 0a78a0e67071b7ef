// Names and enumerations shared by the Execution Manager and its peers.
module Types {
  const MACHINE_STATE_STARTUP := "Starting-up"
  const MACHINE_STATE_RUNNING := "Running"
  const MACHINE_STATE_SUSPEND := "Suspend"
  const MACHINE_STATE_SHUTTINGDOWN := "Shuttingdown"

  const COMPONENT_STATE_ON := "kOn"
  const COMPONENT_STATE_OFF := "kOff"

  // Rounds in which a starting Execution Manager looks for a live "msm" process.
  const STARTUP_POLL_ROUNDS := 6

  datatype Option<+T> = None | Some(value: T)

  datatype AppState = Initializing | Running | ShuttingDown | Suspended

  datatype StateError = Success | InvalidState | InvalidRequest | Timeout

  datatype ReturnType = KSuccess | KGeneralError | KPending | KInvalid | KUnchanged

  datatype UpdateMode = Poll | Event

  // std::map::operator[] read as a total function: an absent key means the empty set.
  function Lookup(m: map<string, set<string>>, k: string): set<string> {
    if k in m then m[k] else {}
  }

  function Range<T>(s: seq<T>): set<T> {
    set x | x in s
  }

  // The elements of s that are outside drop, in order and with repetitions.
  function Without<T(==)>(s: seq<T>, drop: set<T>): seq<T> {
    if s == [] then []
    else (if s[0] in drop then [] else [s[0]]) + Without(s[1..], drop)
  }

  ghost predicate Distinct<T>(s: seq<T>) {
    forall i, j :: 0 <= i < j < |s| ==> s[i] != s[j]
  }

  // f lists, in increasing order, positions of b that spell a.
  ghost predicate Embeds<T>(f: seq<nat>, a: seq<T>, b: seq<T>) {
    && |f| == |a|
    && (forall i :: 0 <= i < |f| ==> f[i] < |b| && b[f[i]] == a[i])
    && (forall i, j :: 0 <= i < j < |f| ==> f[i] < f[j])
  }

  ghost predicate Subsequence<T>(a: seq<T>, b: seq<T>) {
    exists f: seq<nat> :: Embeds(f, a, b)
  }

  lemma {:induction false} WithoutRange<T>(s: seq<T>, drop: set<T>)
    ensures Range(Without(s, drop)) == Range(s) - drop
  {
    if s != [] {
      WithoutRange(s[1..], drop);
      assert s == [s[0]] + s[1..];
      var w := Without(s[1..], drop);
      assert Range(s) == {s[0]} + Range(s[1..]);
      assert Range([s[0]] + w) == {s[0]} + Range(w);
      assert [] + w == w;
    }
  }

  lemma {:induction false} WithoutAppend<T>(a: seq<T>, b: seq<T>, drop: set<T>)
    ensures Without(a + b, drop) == Without(a, drop) + Without(b, drop)
  {
    if a == [] {
      assert a + b == b;
    } else {
      assert (a + b)[1..] == a[1..] + b;
      WithoutAppend(a[1..], b, drop);
    }
  }

  // Removing two groups one after the other is removing their union.
  lemma {:induction false} WithoutTwice<T>(s: seq<T>, d1: set<T>, d2: set<T>)
    ensures Without(Without(s, d1), d2) == Without(s, d1 + d2)
  {
    if s != [] {
      WithoutTwice(s[1..], d1, d2);
      if s[0] !in d1 {
        WithoutAppend([s[0]], Without(s[1..], d1), d2);
      } else {
        assert Without(s, d1) == Without(s[1..], d1);
      }
    }
  }

  lemma {:induction false} WithoutNothing<T>(s: seq<T>)
    ensures Without(s, {}) == s
  {
    if s != [] {
      WithoutNothing(s[1..]);
    }
  }

  lemma SubsequencePrefix<T>(a': seq<T>, a: seq<T>, b: seq<T>)
    requires a' <= a && Subsequence(a, b)
    ensures Subsequence(a', b)
  {
    var f: seq<nat> :| Embeds(f, a, b);
    assert Embeds(f[..|a'|], a', b);
  }
}
