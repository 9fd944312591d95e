/**
 * The hot-potato ring of the FramedTater model: unit 1 launches taters, every other unit
 * passes on what it gets from the unit it subscribes to, and unit 1 ends the case once
 * enough of them have come back.
 */
module Tater {

  /** Whom unit j listens to, in a ring of n units numbered from 1. */
  function Source(n: nat, j: nat): nat
    requires j >= 1
  {
    if j != 1 then j - 1 else n
  }

  /** Who listens to unit j. */
  function Listener(n: nat, j: nat): nat {
    if j == n then 1 else j + 1
  }

  function After(n: nat, start: nat, hops: nat): nat
    decreases hops
  {
    if hops == 0 then start else Listener(n, After(n, start, hops - 1))
  }

  /** The subscriptions form a single cycle: from unit 1 the first n - 1 hops visit units 2
      to n in turn, the n-th comes back to 1, and sources and listeners are inverse. */
  lemma {:induction false} RingIsOneCycle(n: nat, hops: nat)
    requires n >= 1 && hops <= n
    ensures After(n, 1, hops) == if hops < n then 1 + hops else 1
    ensures forall j, k :: 1 <= j <= n && 1 <= k <= n ==> (Listener(n, j) == k <==> Source(n, k) == j)
  {
    if hops > 0 {
      RingIsOneCycle(n, hops - 1);
    }
  }

  /** calls[j - 1] is unit j's callback_count_, flight[j - 1] the taters published by unit j
      and not yet received by its listener. */
  datatype Ring = Ring(launched: nat, calls: seq<nat>, flight: seq<nat>, endCases: nat)

  datatype Action = Launch | Pass(unit: nat)

  function Start(n: nat): Ring {
    Ring(0, seq(n, i => 0), seq(n, i => 0), 0)
  }

  predicate Sized(n: nat, s: Ring) {
    |s.calls| == n && |s.flight| == n
  }

  predicate Enabled(n: nat, s: Ring, a: Action) {
    Sized(n, s) && n >= 1 && (a.Pass? ==> 1 <= a.unit <= n && s.flight[Source(n, a.unit) - 1] > 0)
  }

  function Step(n: nat, maxPasses: int, s: Ring, a: Action): Ring
    requires Enabled(n, s, a)
  {
    match a
    case Launch => s.(launched := s.launched + 1, flight := s.flight[0 := s.flight[0] + 1])
    case Pass(j) =>
      var from := Source(n, j) - 1;
      var count := s.calls[j - 1] + 1;
      var f := s.flight[from := s.flight[from] - 1];
      Ring(s.launched,
           s.calls[j - 1 := count],
           if j != 1 then f[j - 1 := f[j - 1] + 1] else f,
           if count >= maxPasses && j == 1 then s.endCases + 1 else s.endCases)
  }

  function SentBy(s: Ring, j: nat): nat
    requires 1 <= j <= |s.calls|
  {
    if j == 1 then s.launched else s.calls[j - 1]
  }

  predicate Inv(n: nat, maxPasses: int, s: Ring) {
    && Sized(n, s) && n >= 1
    && (forall j :: 1 <= j <= n ==> SentBy(s, j) == s.calls[Listener(n, j) - 1] + s.flight[j - 1])
    && (1 <= maxPasses ==> s.endCases == if s.calls[0] < maxPasses then 0 else s.calls[0] - maxPasses + 1)
  }

  lemma StepKeepsInv(n: nat, maxPasses: int, s: Ring, a: Action)
    requires Inv(n, maxPasses, s) && Enabled(n, s, a)
    ensures Inv(n, maxPasses, Step(n, maxPasses, s, a))
  {
    var s' := Step(n, maxPasses, s, a);
    forall j | 1 <= j <= n
      ensures SentBy(s', j) == s'.calls[Listener(n, j) - 1] + s'.flight[j - 1]
    {
      assert SentBy(s, j) == s.calls[Listener(n, j) - 1] + s.flight[j - 1];
    }
  }

  predicate Runnable(n: nat, maxPasses: int, s: Ring, run: seq<Action>)
    decreases |run|
  {
    run == [] || (Enabled(n, s, run[0]) && Runnable(n, maxPasses, Step(n, maxPasses, s, run[0]), run[1..]))
  }

  function Run(n: nat, maxPasses: int, s: Ring, run: seq<Action>): Ring
    requires Runnable(n, maxPasses, s, run)
    decreases |run|
  {
    if run == [] then s else Run(n, maxPasses, Step(n, maxPasses, s, run[0]), run[1..])
  }

  lemma {:induction false} RunKeepsInv(n: nat, maxPasses: int, s: Ring, run: seq<Action>)
    requires Inv(n, maxPasses, s) && Runnable(n, maxPasses, s, run)
    ensures Inv(n, maxPasses, Run(n, maxPasses, s, run))
    decreases |run|
  {
    if run != [] {
      StepKeepsInv(n, maxPasses, s, run[0]);
      RunKeepsInv(n, maxPasses, Step(n, maxPasses, s, run[0]), run[1..]);
    }
  }

  function Sum(s: seq<nat>): nat {
    if s == [] then 0 else Sum(s[..|s| - 1]) + s[|s| - 1]
  }

  /** The first k units' taters under way, telescoped. */
  lemma {:induction false} PartialSum(n: nat, maxPasses: int, s: Ring, k: nat)
    requires Inv(n, maxPasses, s) && 1 <= k <= n
    ensures Sum(s.flight[..k]) == s.launched - s.calls[Listener(n, k) - 1]
    decreases k
  {
    assert s.flight[..k][..k - 1] == s.flight[..k - 1];
    assert SentBy(s, k) == s.calls[Listener(n, k) - 1] + s.flight[k - 1];
    if k > 1 {
      PartialSum(n, maxPasses, s, k - 1);
    } else {
      assert s.flight[..0] == [];
    }
  }

  /** Unit j has had no fewer callbacks than the unit that listens to it. */
  predicate Falls(n: nat, s: Ring, j: int)
    requires Sized(n, s) && 1 <= j <= n
  {
    s.calls[Listener(n, j) - 1] <= s.calls[j - 1] <= s.launched
  }

  lemma CountsFall(n: nat, maxPasses: int, s: Ring, j: nat)
    requires Inv(n, maxPasses, s) && 2 <= j <= n
    ensures Falls(n, s, j)
  {
    assert SentBy(s, j) == s.calls[Listener(n, j) - 1] + s.flight[j - 1];
    PartialSum(n, maxPasses, s, j - 1);
  }

  lemma ConservedAt(n: nat, maxPasses: int, s: Ring)
    requires Inv(n, maxPasses, s)
    ensures s.launched == s.calls[0] + Sum(s.flight)
    ensures forall j :: 2 <= j <= n ==> Falls(n, s, j)
    ensures 1 <= maxPasses ==> (s.endCases > 0 <==> s.calls[0] >= maxPasses)
    ensures 1 <= maxPasses ==> (s.endCases == 1 <==> s.calls[0] == maxPasses)
  {
    PartialSum(n, maxPasses, s, n);
    assert s.flight[..n] == s.flight;
    forall j | 2 <= j <= n
      ensures Falls(n, s, j)
    {
      CountsFall(n, maxPasses, s, j);
    }
  }

  /** In every run of a ring of any size: taters launched are taters returned plus taters
      under way, the callback counts fall along the ring, and, for a positive number of
      passes, unit 1 has ended the case once for every return from the maxPasses-th on. */
  lemma RingConserves(n: nat, maxPasses: int, run: seq<Action>)
    requires n >= 1 && Runnable(n, maxPasses, Start(n), run)
    ensures var s := Run(n, maxPasses, Start(n), run);
            && Sized(n, s)
            && s.launched == s.calls[0] + Sum(s.flight)
            && (forall j :: 2 <= j <= n ==> Falls(n, s, j))
            && (1 <= maxPasses ==> (s.endCases > 0 <==> s.calls[0] >= maxPasses))
            && (1 <= maxPasses ==> (s.endCases == 1 <==> s.calls[0] == maxPasses))
  {
    RunKeepsInv(n, maxPasses, Start(n), run);
    ConservedAt(n, maxPasses, Run(n, maxPasses, Start(n), run));
  }

  predicate Quiet(s: Ring) {
    forall i :: 0 <= i < |s.flight| ==> s.flight[i] == 0
  }

  /** Once nothing is under way every unit has seen every tater. */
  lemma QuietRing(n: nat, maxPasses: int, run: seq<Action>, j: nat)
    requires n >= 1 && Runnable(n, maxPasses, Start(n), run) && 1 <= j <= n
    requires Quiet(Run(n, maxPasses, Start(n), run))
    ensures var s := Run(n, maxPasses, Start(n), run);
            Sized(n, s) && s.calls[j - 1] == s.launched
  {
    RunKeepsInv(n, maxPasses, Start(n), run);
    QuietFrom(n, maxPasses, Run(n, maxPasses, Start(n), run), Source(n, j));
  }

  lemma {:induction false} QuietFrom(n: nat, maxPasses: int, s: Ring, k: nat)
    requires Inv(n, maxPasses, s) && 1 <= k <= n
    requires Quiet(s)
    ensures s.calls[Listener(n, k) - 1] == s.launched
    decreases k
  {
    assert SentBy(s, k) == s.calls[Listener(n, k) - 1] + s.flight[k - 1];
    if k > 1 {
      QuietFrom(n, maxPasses, s, k - 1);
    }
  }

  // ---------------------------------------------------------------------------
  // One unit

  datatype UnitState = UnitState(calls: nat, sent: nat, endCases: nat)

  function Passed(unit: nat, maxPasses: int, u: UnitState): UnitState {
    var calls := u.calls + 1;
    if unit != 1 then UnitState(calls, u.sent + 1, u.endCases)
    else UnitState(calls, u.sent, if calls >= maxPasses then u.endCases + 1 else u.endCases)
  }

  function Stepped(unit: nat, u: UnitState): UnitState {
    if unit == 1 then u.(sent := u.sent + 1) else u
  }

  /** Unit j's own counters in a state of the ring. */
  function UnitOf(s: Ring, j: nat): UnitState
    requires 1 <= j <= |s.calls|
  {
    UnitState(s.calls[j - 1], SentBy(s, j), if j == 1 then s.endCases else 0)
  }

  /** The ring is the composition of its units: a step changes just the acting unit's
      counters, and changes them as that unit's callback does. */
  lemma RingOfUnits(n: nat, maxPasses: int, s: Ring, a: Action, j: nat)
    requires Enabled(n, s, a) && 1 <= j <= n
    ensures var s' := Step(n, maxPasses, s, a);
            Sized(n, s') &&
            UnitOf(s', j) == if a == Pass(j) then Passed(j, maxPasses, UnitOf(s, j))
                             else if a == Launch then Stepped(j, UnitOf(s, j))
                             else UnitOf(s, j)
  {
  }

  class FramedTater {
    const unitId: nat
    const maxPasses: int
    var callbackCount: nat
    var sendCount: nat
    var endCases: nat

    ghost function Now(): UnitState
      reads this
    {
      UnitState(callbackCount, sendCount, endCases)
    }

    constructor (unit: nat, passes: int)
      ensures unitId == unit && maxPasses == passes && Now() == UnitState(0, 0, 0)
    {
      unitId, maxPasses, callbackCount, sendCount, endCases := unit, passes, 0, 0, 0;
    }

    /** Counts the callback; unit 1 ends the case from the maxPasses-th callback on and
        never passes a tater, every other unit always passes it on. */
    method PassTheTater()
      modifies this
      ensures Now() == Passed(unitId, maxPasses, old(Now()))
    {
      callbackCount := callbackCount + 1;
      if callbackCount >= maxPasses && unitId == 1 {
        endCases := endCases + 1;
      } else if unitId != 1 {
        sendCount := sendCount + 1;
      }
    }

    /** Only unit 1 launches on a step. */
    method MonteCarloStep()
      modifies this
      ensures Now() == Stepped(unitId, old(Now()))
    {
      if unitId == 1 {
        sendCount := sendCount + 1;
      }
    }
  }
}
