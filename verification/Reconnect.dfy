/**
 * Reconnect discipline of `ConnectionHandler`: exponential backoff in unsigned 32-bit
 * arithmetic, and who schedules another attempt after a close.
 */
module Reconnect {
  import opened Basics

  /** timeout(): the new value; the caller waits for the old one. */
  function Doubled(t: nat, max: nat): nat {
    var d := (2 * t) % WORD;
    if d > max then max else d
  }

  /** timeout(to): clamp. */
  function Clamp(to: nat, max: nat): nat {
    if to > max then max else to
  }

  /** The delay of the k-th attempt after a reset to 1. */
  function Delay(k: nat, max: nat): nat {
    if k == 0 then Clamp(1, max) else Doubled(Delay(k - 1, max), max)
  }

  function Pow2(k: nat): nat {
    if k == 0 then 1 else 2 * Pow2(k - 1)
  }

  lemma DoubledWithoutWrap(t: nat, max: nat)
    requires t <= max < 0x8000_0000
    ensures Doubled(t, max) == Clamp(2 * t, max)
  {
    assert 2 * t < WORD;
  }

  lemma {:induction false} DelayWithoutWrap(k: nat, max: nat)
    requires max < 0x8000_0000
    ensures Delay(k, max) == Clamp(Pow2(k), max)
  {
    if k > 0 {
      DelayWithoutWrap(k - 1, max);
      DoubledWithoutWrap(Delay(k - 1, max), max);
    }
  }

  lemma {:induction false} DelayBeforeWrap(k: nat, max: nat)
    requires 0x8000_0000 <= max < WORD && Pow2(k) <= 0x8000_0000
    ensures Delay(k, max) == Pow2(k)
  {
    if k > 0 {
      DelayBeforeWrap(k - 1, max);
    }
  }

  lemma {:induction false} Pow2Sum(a: nat, b: nat)
    ensures Pow2(a + b) == Pow2(a) * Pow2(b)
    decreases b
  {
    if b > 0 {
      Pow2Sum(a, b - 1);
      assert Pow2(a + b) == 2 * Pow2(a + (b - 1));
    }
  }

  lemma Pow2At31()
    ensures Pow2(31) == 0x8000_0000
  {
    assert Pow2(4) == 16;
    Pow2Sum(4, 4);
    Pow2Sum(8, 8);
    Pow2Sum(8, 4);
    Pow2Sum(12, 3);
    Pow2Sum(15, 16);
    assert Pow2(3) == 8;
  }

  lemma DoubledToZero(t: nat, max: nat)
    requires t == 0 || t == 0x8000_0000
    ensures Doubled(t, max) == 0
  {
  }

  lemma FirstWrap(k: nat, max: nat)
    requires 0x8000_0000 <= max < WORD && Pow2(k) == 0x8000_0000
    ensures Delay(k + 1, max) == 0
  {
    DelayBeforeWrap(k, max);
    DoubledToZero(Delay(k, max), max);
  }

  /** From the first wrap on the delay is zero for good. */
  lemma {:induction false} CollapsedBackoff(k: nat, max: nat)
    requires 0x8000_0000 <= max < WORD && k >= 32
    ensures Delay(k, max) == 0
  {
    if k == 32 {
      Pow2At31();
      FirstWrap(k - 1, max);
    } else {
      CollapsedBackoff(k - 1, max);
      DoubledToZero(0, max);
    }
  }

  /** Every delay is min(2^k, max) if and only if the maximum is below 2^31. */
  lemma BackoffIff(max: nat)
    requires max < WORD
    ensures (forall k: nat :: Delay(k, max) == Clamp(Pow2(k), max)) <==> max < 0x8000_0000
  {
    if max < 0x8000_0000 {
      forall k: nat
        ensures Delay(k, max) == Clamp(Pow2(k), max)
      {
        DelayWithoutWrap(k, max);
      }
    } else {
      CollapsedBackoff(32, max);
      Pow2Positive(32);
      assert Delay(32, max) != Clamp(Pow2(32), max);
    }
  }

  lemma {:induction false} Pow2Positive(k: nat)
    ensures Pow2(k) >= 1
  {
    if k > 0 {
      Pow2Positive(k - 1);
    }
  }

  // ---------------------------------------------------------------------------
  // The handler's life

  datatype Phase = Idle | Established | Failed | Disconnecting

  /** since counts the attempts scheduled since the last reset; delays records, for every
      attempt, that count and the seconds waited. */
  datatype Life = Life(
    active: bool, max: nat, phase: Phase, commanded: bool, destroyed: bool,
    timeout: nat, since: nat, delays: seq<(nat, nat)>)

  function Initialize(active: bool, max: nat): Life {
    Life(active, max, Idle, false, false, 1, 0, [])
  }

  /** Opened: the connection came up. Status: a report was asked for. Closed: the reactor
      called handle_close. Goodbye: a GOODBYE was processed, which closes as well.
      Restarted: reinitiate_connection by id, a reset followed by a close. */
  datatype Event = Opened | Status | Closed | Goodbye | Restarted

  function Reset(s: Life): Life {
    s.(timeout := Clamp(1, s.max), since := 0)
  }

  function Schedule(s: Life): Life {
    s.(delays := s.delays + [(s.since, s.timeout)], timeout := Doubled(s.timeout, s.max), since := s.since + 1)
  }

  function Close(s: Life): Life {
    if s.active && !s.commanded then Schedule(s.(phase := Failed))
    else s.(phase := Disconnecting, destroyed := true)
  }

  function Step(s: Life, e: Event): Life {
    if s.destroyed then s
    else match e
      case Opened => Reset(s.(phase := Established))
      case Status => Reset(s)
      case Closed => Close(s)
      case Goodbye => Close(s.(commanded := true))
      case Restarted => Close(Reset(s))
  }

  function Run(s: Life, es: seq<Event>): Life
    decreases |es|
  {
    if es == [] then s else Run(Step(s, es[0]), es[1..])
  }

  predicate Inv(s: Life) {
    && s.timeout == Delay(s.since, s.max)
    && forall i :: 0 <= i < |s.delays| ==> s.delays[i].1 == Delay(s.delays[i].0, s.max)
  }

  lemma ScheduleKeepsInv(s: Life)
    requires Inv(s)
    ensures Inv(Schedule(s))
  {
    assert Delay(s.since + 1, s.max) == Doubled(s.timeout, s.max);
  }

  lemma CloseKeepsInv(s: Life)
    requires Inv(s)
    ensures Inv(Close(s))
  {
    if s.active && !s.commanded {
      ScheduleKeepsInv(s.(phase := Failed));
    }
  }

  lemma StepKeepsInv(s: Life, e: Event)
    requires Inv(s)
    ensures Inv(Step(s, e)) && Step(s, e).max == s.max
  {
    match e
    case Closed => CloseKeepsInv(s);
    case Goodbye => CloseKeepsInv(s.(commanded := true));
    case Restarted => CloseKeepsInv(Reset(s));
    case _ =>
  }

  lemma {:induction false} RunKeepsInv(s: Life, es: seq<Event>)
    requires Inv(s)
    ensures Inv(Run(s, es)) && Run(s, es).max == s.max
    decreases |es|
  {
    if es != [] {
      StepKeepsInv(s, es[0]);
      RunKeepsInv(Step(s, es[0]), es[1..]);
    }
  }

  /** In every life of a handler with a maximum of at least one second and below 2^31, the
      k-th attempt since the last reset waits min(2^k, max) seconds. */
  lemma DelaysFollowBackoff(active: bool, max: nat, es: seq<Event>, i: nat)
    requires 1 <= max < 0x8000_0000 && i < |Run(Initialize(active, max), es).delays|
    ensures var d := Run(Initialize(active, max), es).delays[i]; d.1 == Clamp(Pow2(d.0), max)
  {
    RunKeepsInv(Initialize(active, max), es);
    DelayWithoutWrap(Run(Initialize(active, max), es).delays[i].0, max);
  }

  /** An event that closes the connection. */
  predicate Ends(e: Event) {
    e == Closed || e == Goodbye || e == Restarted
  }

  /** Who lives: a passive handler until the first close, an active one until a GOODBYE. */
  lemma {:induction false} DestroyedIff(s: Life, es: seq<Event>)
    requires !s.destroyed && !s.commanded
    ensures var t := Run(s, es);
            t.destroyed <==> if s.active then Goodbye in es else exists e :: e in es && Ends(e)
    decreases |es|
  {
    if es != [] {
      assert es == [es[0]] + es[1..];
      var t := Step(s, es[0]);
      if t.destroyed {
        StaysDestroyed(t, es[1..]);
        assert es[0] in es && Ends(es[0]);
      } else {
        DestroyedIff(t, es[1..]);
      }
    }
  }

  lemma {:induction false} StaysDestroyed(s: Life, es: seq<Event>)
    requires s.destroyed
    ensures Run(s, es) == s
    decreases |es|
  {
    if es != [] {
      StaysDestroyed(s, es[1..]);
    }
  }

  /** The phase shows the last thing that happened, status reports aside: nothing yet, an
      opening, or a failure; and disconnecting once the handler is let go. */
  lemma PhaseAfter(s: Life, e: Event)
    requires !s.destroyed
    ensures var t := Step(s, e);
            && (t.phase == Established <==> e == Opened || (e == Status && s.phase == Established))
            && (Ends(e) ==> t.phase == if t.destroyed then Disconnecting else Failed)
            && (e == Status ==> t.phase == s.phase)
            && (t.destroyed <==> Ends(e) && (!s.active || s.commanded || e == Goodbye))
  {
  }

  function Closes(n: nat): seq<Event> {
    seq(n, i => Closed)
  }

  lemma {:induction false} RunAppend(s: Life, a: seq<Event>, b: seq<Event>)
    ensures Run(s, a + b) == Run(Run(s, a), b)
    decreases |a|
  {
    if a == [] {
      assert a + b == b;
    } else {
      assert (a + b)[0] == a[0] && (a + b)[1..] == a[1..] + b;
      RunAppend(Step(s, a[0]), a[1..], b);
    }
  }

  predicate Live(s: Life) {
    s.active && !s.commanded && !s.destroyed
  }

  /** n failures in a row from a reset make n attempts, counted from zero. */
  lemma {:induction false} FailuresCount(s: Life, n: nat)
    requires Live(s) && Inv(s)
    ensures var t := Run(s, Closes(n));
            && Live(t) && t.max == s.max && t.since == s.since + n && |t.delays| == |s.delays| + n
            && (n > 0 ==> t.delays[|t.delays| - 1] == (s.since + n - 1, Delay(s.since + n - 1, s.max)))
  {
    if n > 0 {
      FailuresCount(s, n - 1);
      RunKeepsInv(s, Closes(n - 1));
      assert Closes(n) == Closes(n - 1) + [Closed];
      RunAppend(s, Closes(n - 1), [Closed]);
      var t := Run(s, Closes(n - 1));
      assert Run(t, [Closed]) == Step(t, Closed);
    }
  }

  /** An active handler lives on as long as no GOODBYE is processed. */
  lemma {:induction false} LivesOn(s: Life, es: seq<Event>)
    requires Live(s) && Goodbye !in es
    ensures Live(Run(s, es))
    decreases |es|
  {
    if es != [] {
      LivesOn(Step(s, es[0]), es[1..]);
    }
  }

  /** How many failures after the reset make `failures` in all: a restart by id is itself
      the first one. */
  function FailuresAfter(reset: Event, failures: nat): nat
    requires failures > 0
  {
    if reset == Restarted then failures - 1 else failures
  }

  lemma RetryFrom(s: Life, reset: Event, failures: nat)
    requires Live(s) && Inv(s) && failures > 0
    requires reset == Opened || reset == Status || reset == Restarted
    ensures var t := Run(s, [reset] + Closes(FailuresAfter(reset, failures)));
            t.delays != [] && t.delays[|t.delays| - 1].1 == Delay(failures - 1, s.max)
  {
    var r, more := Step(s, reset), FailuresAfter(reset, failures);
    assert ([reset] + Closes(more))[1..] == Closes(more);
    StepKeepsInv(s, reset);
    FailuresCount(r, more);
    if more == 0 {
      assert Closes(more) == [];
    }
  }

  /** Said of the history alone: after anything that resets the timeout, the attempt that
      makes the m-th failure since waits min(2^(m-1), max). */
  lemma RetryDelay(max: nat, es: seq<Event>, reset: Event, failures: nat)
    requires 1 <= max < 0x8000_0000 && Goodbye !in es
    requires reset == Opened || reset == Status || reset == Restarted
    requires failures > 0
    ensures var t := Run(Initialize(true, max), es + ([reset] + Closes(FailuresAfter(reset, failures))));
            t.delays != [] && t.delays[|t.delays| - 1].1 == Clamp(Pow2(failures - 1), max)
  {
    LivesOn(Initialize(true, max), es);
    RunKeepsInv(Initialize(true, max), es);
    RunAppend(Initialize(true, max), es, [reset] + Closes(FailuresAfter(reset, failures)));
    RetryFrom(Run(Initialize(true, max), es), reset, failures);
    DelayWithoutWrap(failures - 1, max);
  }

  /** With a maximum of 2^31 or more every failure in a row from the 33rd on is retried at
      once. */
  lemma CollapseShows(max: nat, n: nat)
    requires 0x8000_0000 <= max < WORD && n >= 33
    ensures var s := Run(Initialize(true, max), Closes(n));
            |s.delays| == n && s.delays[n - 1].1 == 0 != Clamp(Pow2(s.delays[n - 1].0), max)
  {
    FailuresCount(Initialize(true, max), n);
    CollapsedBackoff(n - 1, max);
    Pow2Positive(n - 1);
  }

  ghost predicate BacksOff(max: nat) {
    forall active: bool, es: seq<Event>, i: nat :: i < |Run(Initialize(active, max), es).delays| ==>
      var d := Run(Initialize(active, max), es).delays[i]; d.1 == Clamp(Pow2(d.0), max)
  }

  /** Every attempt in every life backs off as documented exactly when the configured
      maximum is at least one second and below 2^31. */
  lemma BacksOffIff(max: nat)
    requires max < WORD
    ensures BacksOff(max) <==> 1 <= max < 0x8000_0000
  {
    if 1 <= max < 0x8000_0000 {
      forall active: bool, es: seq<Event>, i: nat | i < |Run(Initialize(active, max), es).delays|
        ensures var d := Run(Initialize(active, max), es).delays[i]; d.1 == Clamp(Pow2(d.0), max)
      {
        DelaysFollowBackoff(active, max, es, i);
      }
    } else if max == 0 {
      var s := Run(Initialize(true, 0), [Closed]);
      assert s == Step(Initialize(true, 0), Closed);
      assert s.delays[0] == (0, 1) && 1 != Clamp(Pow2(0), 0);
    } else {
      var n: nat :| n >= 33;
      CollapseShows(max, n);
      assert !BacksOff(max);
    }
  }

  /** Neither a passive handler nor one that has processed a GOODBYE ever schedules again. */
  lemma {:induction false} NoMoreAttempts(s: Life, es: seq<Event>)
    requires !s.active || s.commanded || s.destroyed
    ensures Run(s, es).delays == s.delays
    decreases |es|
  {
    if es != [] {
      NoMoreAttempts(Step(s, es[0]), es[1..]);
    }
  }

  lemma GoodbyeIsFinal(s: Life, es: seq<Event>)
    ensures Run(Step(s, Goodbye), es).delays == s.delays
  {
    NoMoreAttempts(Step(s, Goodbye), es);
  }

  // ---------------------------------------------------------------------------
  // The handler object

  class ConnectionHandler {
    const active: bool
    const maxRetryTimeout: nat
    var phase: Phase
    var commandedClose: bool
    var destroyed: bool
    var timeout: nat
    ghost var since: nat
    ghost var delays: seq<(nat, nat)>

    /** What the fields, with the record of past attempts, stand for. */
    ghost function Now(): Life
      reads this
    {
      Life(active, maxRetryTimeout, phase, commandedClose, destroyed, timeout, since, delays)
    }

    constructor (isActive: bool, max: nat)
      ensures Now() == Initialize(isActive, max)
    {
      active, maxRetryTimeout := isActive, max;
      phase, commandedClose, destroyed, timeout := Phase.Idle, false, false, 1;
      since, delays := 0, [];
    }

    /** timeout(to): clamp; attempts are counted anew from here. */
    method SetTimeout(to: nat)
      modifies this
      ensures Now() == old(Now()).(timeout := Clamp(to, maxRetryTimeout), since := 0)
    {
      timeout := if to > maxRetryTimeout then maxRetryTimeout else to;
      since := 0;
    }

    /** timeout(): double with wrap-around, clamp, return the old value. */
    method NextTimeout() returns (was: nat)
      modifies this`timeout
      ensures was == old(timeout) && timeout == Doubled(old(timeout), maxRetryTimeout)
    {
      was := timeout;
      timeout := (timeout * 2) % WORD;
      if timeout > maxRetryTimeout {
        timeout := maxRetryTimeout;
      }
    }

    method ScheduleReconnect()
      modifies this
      ensures Now() == Schedule(old(Now()))
    {
      var wait := NextTimeout();
      since, delays := since + 1, delays + [(since, wait)];
    }

    /** handle_close: reconnect, or let go of the handler for good. */
    method HandleClose()
      modifies this
      ensures Now() == Close(old(Now()))
    {
      if active && !commandedClose {
        phase := Failed;
        ScheduleReconnect();
      } else {
        phase := Disconnecting;
        destroyed := true;
      }
    }

    /** Every event moves the handler as the life cycle says. */
    method On(e: Event)
      modifies this
      ensures Now() == Step(old(Now()), e)
    {
      if destroyed { return; }
      match e
      case Opened =>
        phase := Established;
        SetTimeout(1);
      case Status => SetTimeout(1);
      case Closed => HandleClose();
      case Goodbye =>
        commandedClose := true;
        HandleClose();
      case Restarted =>
        SetTimeout(1);
        HandleClose();
    }
  }
}
