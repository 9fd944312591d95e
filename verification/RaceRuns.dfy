/**
 * The threaded transmitter beside the sequential one: without interruption its steps are
 * the operations of `Transmit`; and runs in which the threads do get in each other's way.
 */
module RaceRuns {
  import opened Frames
  import opened Race
  import Tx = Transmit
  import Receive

  // ---------------------------------------------------------------------------
  // One thread at a time: the steps are the operations of the sequential model

  function Block(s: State, m: nat): seq<Unit>
    requires m < |s.sizes| == |s.rd|
  {
    if Left(s, m) <= 0 then [] else Units(m, s.rd[m], Left(s, m))
  }

  function Blocks(s: State, q: seq<nat>): seq<seq<Unit>>
    requires |s.rd| == |s.sizes| && forall i :: 0 <= i < |q| ==> q[i] < |s.sizes|
  {
    seq(|q|, i requires 0 <= i < |q| => Block(s, q[i]))
  }

  function Sequential(s: State): Tx.Tx<Unit>
    requires WellFormedState(s)
  {
    Tx.Tx(Blocks(s, s.queue), s.wakeup, false, s.sent)
  }

  /** No thread is in the middle of anything. */
  predicate Quiet(s: State) {
    && WellFormedState(s) && s.out.Idle? && s.puts == map[]
    && (forall i, j :: 0 <= i < j < |s.queue| ==> s.queue[i] != s.queue[j])
  }

  function Rank(o: Out): nat {
    match o
    case Idle => 0 case Cancel => 1 case Test => 2
    case Busy(_, pc) =>
      match pc case Advance(_) => 3 case Schedule(_, _) => 4 case Requeue(_, _) => 5 case Send => 6 case Tail => 7
  }

  /** The rest of a handle_output, without interruption. */
  function OutDone(s: State, c: Tx.Send): State
    requires WellFormedState(s) && (s.out.Busy? ==> Can(s, s.out.message, s.out.pc, c))
    decreases Rank(s.out)
  {
    if s.out.Idle? then s
    else
      StepKeepsWellFormed(s, OutStep(c));
      OutDone(Step(s, OutStep(c)), c)
  }

  /** The rest of a put, without interruption. */
  function PutDone(s: State, m: nat, c: Tx.Send): State
    requires WellFormedState(s) && (m in s.puts ==> Can(s, m, s.puts[m], c))
    decreases if m in s.puts then Rank(Busy(m, s.puts[m])) else 0
  {
    if m !in s.puts then s
    else
      StepKeepsWellFormed(s, PutStep(m, c));
      PutDone(Step(s, PutStep(m, c)), m, c)
  }

  lemma UnitsTake(m: nat, from: nat, n: nat, k: nat)
    requires k <= n
    ensures Units(m, from, n)[..k] == Units(m, from, k)
    ensures Units(m, from, n)[k..] == Units(m, from + k, n - k)
  {
  }

  lemma BlocksFrame(s: State, t: State, q: seq<nat>)
    requires |s.rd| == |s.sizes| == |t.rd| == |t.sizes| && forall i :: 0 <= i < |q| ==> q[i] < |s.sizes|
    requires forall i :: 0 <= i < |q| ==> s.rd[q[i]] == t.rd[q[i]] && s.sizes[q[i]] == t.sizes[q[i]]
    ensures Blocks(s, q) == Blocks(t, q)
  {
  }

  /** nonblk_put of message m, without interruption, as the sequential model has it. */
  function Sent(s: State, m: nat, c: Tx.Send): State
    requires m < |s.sizes| == |s.rd| && Possible(Left(s, m), c)
  {
    var k := Tx.BytesMoved(c);
    var t := s.(rd := s.rd[m := s.rd[m] + k], sent := s.sent + Units(m, s.rd[m], k));
    if k == Left(s, m) then t else t.(queue := [m] + s.queue, wakeup := true)
  }

  lemma SentIsNonblkPut(s: State, m: nat, c: Tx.Send)
    requires WellFormedState(s) && m < |s.sizes| && Possible(Left(s, m), c) && m !in s.queue
    ensures WellFormedState(Sent(s, m, c))
    ensures Tx.NonblkPut(Sequential(s), Block(s, m), Tx.Choice(c, true))
         == Tx.Result(Sequential(Sent(s, m, c)), Tx.BytesMoved(c))
  {
    var t, k := Sent(s, m, c), Tx.BytesMoved(c);
    UnitsTake(m, s.rd[m], Left(s, m), k);
    BlocksFrame(s, t, s.queue);
    if k < Left(s, m) {
      assert Blocks(t, [m] + s.queue) == [Block(t, m)] + Blocks(t, s.queue);
    }
  }

  lemma TestDone(s: State, c: Tx.Send)
    requires WellFormedState(s) && s.out.Test?
    ensures OutDone(s, c) == s.(out := Idle, wakeup := s.wakeup && s.queue != [])
  {
    var t := Step(s, OutStep(c));
    StepKeepsWellFormed(s, OutStep(c));
    if t.out.Cancel? {
      var u := Step(t, OutStep(c));
      StepKeepsWellFormed(t, OutStep(c));
      assert OutDone(t, c) == OutDone(u, c) == u;
    }
  }

  lemma AdvanceDone(s: State, m: nat, k: nat, c: Tx.Send)
    requires WellFormedState(s) && s.out == Busy(m, Advance(k)) && s.queue != []
    ensures OutDone(s, c) == s.(rd := s.rd[m := s.rd[m] + k], out := Idle)
  {
    var t := Step(s, OutStep(c));
    StepKeepsWellFormed(s, OutStep(c));
    if t.out.Test? {
      TestDone(t, c);
    }
  }

  lemma ScheduleDone(s: State, m: nat, b: bool, k: nat, c: Tx.Send)
    requires WellFormedState(s) && s.out == Busy(m, Schedule(b, k)) && s.queue != [] && (b || k > 0)
    ensures OutDone(s, c) == s.(wakeup := true, rd := if b then s.rd[m := s.rd[m] + k] else s.rd, out := Idle)
  {
    var t := Step(s, OutStep(c));
    StepKeepsWellFormed(s, OutStep(c));
    if b {
      AdvanceDone(t, m, k, c);
    } else {
      TestDone(t, c);
    }
  }

  /** After a partial send the rest of the wakeup queues the remainder. */
  lemma RequeueDone(s: State, m: nat, b: bool, k: nat, c: Tx.Send)
    requires WellFormedState(s) && s.out == Busy(m, Requeue(b, k)) && (b || k > 0)
    ensures OutDone(s, c)
         == s.(queue := [m] + s.queue, wakeup := true, rd := if b then s.rd[m := s.rd[m] + k] else s.rd, out := Idle)
  {
    StepKeepsWellFormed(s, OutStep(c));
    ScheduleDone(Step(s, OutStep(c)), m, b, k, c);
  }

  /** A wakeup that sent its block whole goes on to cancel if the queue is empty. */
  function SentByWakeup(s: State, m: nat, c: Tx.Send): State
    requires m < |s.sizes| == |s.rd| && Possible(Left(s, m), c)
  {
    var t := Sent(s, m, c);
    t.(out := Idle, wakeup := if Tx.BytesMoved(c) == Left(s, m) then t.wakeup && t.queue != [] else true)
  }

  lemma OutDoneIsSent(s: State, m: nat, c: Tx.Send)
    requires WellFormedState(s) && s.out == Busy(m, Send) && m < |s.sizes| && Possible(Left(s, m), c)
    ensures OutDone(s, c) == SentByWakeup(s, m, c)
  {
    var s1, k := Step(s, OutStep(c)), Tx.BytesMoved(c);
    StepKeepsWellFormed(s, OutStep(c));
    if k == Left(s, m) {
      TestDone(s1, c);
    } else {
      RequeueDone(s1, m, c.Blocked?, k, c);
    }
  }

  lemma DequeueIsTail(s: State)
    requires Quiet(s) && s.queue != [] && s.wakeup
    ensures var d := Step(s, Dequeue);
            && WellFormedState(d) && s.queue[0] !in d.queue && Block(d, s.queue[0]) == Sequential(s).queue[0]
            && Sequential(s).(queue := Sequential(s).queue[1..]) == Sequential(d)
  {
    var d := Step(s, Dequeue);
    StepKeepsWellFormed(s, Dequeue);
    assert Blocks(s, s.queue)[1..] == Blocks(d, d.queue);
  }

  lemma SentIsQuiet(s: State, m: nat, c: Tx.Send)
    requires WellFormedState(s) && m < |s.sizes| && Possible(Left(s, m), c) && m !in s.queue
    requires forall i, j :: 0 <= i < j < |s.queue| ==> s.queue[i] != s.queue[j]
    ensures var q := Sent(s, m, c).queue; forall i, j :: 0 <= i < j < |q| ==> q[i] != q[j]
  {
  }

  lemma SequentialOf(s: State, t: State)
    requires WellFormedState(s) && WellFormedState(t)
    requires s.sizes == t.sizes && s.rd == t.rd && s.queue == t.queue && s.sent == t.sent
    ensures Sequential(t) == Sequential(s).(wakeup := t.wakeup)
  {
    BlocksFrame(s, t, s.queue);
  }

  /** An uninterrupted wakeup is handle_output. */
  lemma UninterruptedIsHandleOutput(s: State, c: Tx.Send)
    requires Quiet(s) && s.queue != [] && s.wakeup && Possible(Left(s, s.queue[0]), c)
    ensures var d := Step(s, Dequeue);
            && WellFormedState(d) && Quiet(OutDone(d, c))
            && Sequential(OutDone(d, c)) == Tx.HandleOutput(Sequential(s), Tx.Choice(c, true))
  {
    var d, m := Step(s, Dequeue), s.queue[0];
    DequeueIsTail(s);
    OutDoneIsSent(d, m, c);
    SentIsNonblkPut(d, m, c);
    SentIsQuiet(d, m, c);
    SequentialOf(Sent(d, m, c), OutDone(d, c));
  }

  lemma PutQueued(s: State, m: nat, b: bool, k: nat, c: Tx.Send)
    requires WellFormedState(s) && m in s.puts && s.puts[m] == Schedule(b, k)
    ensures PutDone(s, m, c)
         == s.(wakeup := true, rd := if b then s.rd[m := s.rd[m] + k] else s.rd, puts := s.puts - {m})
  {
    var t := Step(s, PutStep(m, c));
    StepKeepsWellFormed(s, PutStep(m, c));
    if b {
      StepKeepsWellFormed(t, PutStep(m, c));
      assert s.puts[m := Advance(k)] - {m} == s.puts - {m};
      assert PutDone(t, m, c) == Step(t, PutStep(m, c));
    }
  }

  lemma PutDoneIsSent(s: State, m: nat, c: Tx.Send)
    requires WellFormedState(s) && m in s.puts && s.puts[m] == Send && Possible(Left(s, m), c)
    ensures PutDone(s, m, c) == Sent(s, m, c).(puts := s.puts - {m})
  {
    var s1, k := Step(s, PutStep(m, c)), Tx.BytesMoved(c);
    StepKeepsWellFormed(s, PutStep(m, c));
    if k < Left(s, m) {
      var s2 := Step(s1, PutStep(m, c));
      StepKeepsWellFormed(s1, PutStep(m, c));
      PutQueued(s2, m, c.Blocked?, k, c);
      assert s2.puts - {m} == s.puts - {m};
    }
  }

  lemma BeginIsSequential(s: State, size: nat)
    requires Quiet(s) && size > 0
    ensures var b, m := Step(s, Begin(size)), |s.sizes|;
            && WellFormedState(b) && m !in b.queue && b.puts - {m} == map[]
            && Block(b, m) == Units(m, 0, size) && Sequential(b) == Sequential(s)
  {
    var b := Step(s, Begin(size));
    StepKeepsWellFormed(s, Begin(size));
    assert Blocks(b, b.queue) == Blocks(s, s.queue);
  }

  lemma TailIsPut(b: State, m: nat, c: Tx.Send)
    requires WellFormedState(b) && m in b.puts && b.puts[m] == Tail && m !in b.queue
    ensures var t := PutDone(b, m, c);
            && WellFormedState(t) && t == b.(queue := b.queue + [m], puts := b.puts - {m})
            && Sequential(t) == Sequential(b).(queue := Sequential(b).queue + [Block(b, m)])
  {
    var t := Step(b, PutStep(m, c));
    StepKeepsWellFormed(b, PutStep(m, c));
    BlocksFrame(b, t, b.queue);
    assert Blocks(t, t.queue) == Blocks(b, b.queue) + [Block(b, m)];
  }

  /** An uninterrupted put is put. */
  lemma UninterruptedIsPut(s: State, size: nat, c: Tx.Send)
    requires Quiet(s) && Possible(size, c)
    ensures var b, m := Step(s, Begin(size)), |s.sizes|;
            && WellFormedState(b) && (m in b.puts ==> Can(b, m, b.puts[m], c)) && Quiet(PutDone(b, m, c))
            && Sequential(PutDone(b, m, c)) == Tx.Put(Sequential(s), Units(m, 0, size), Tx.Choice(c, true)).tx
  {
    var b, m := Step(s, Begin(size)), |s.sizes|;
    BeginIsSequential(s, size);
    if s.queue == [] {
      PutDoneIsSent(b, m, c);
      SentIsNonblkPut(b, m, c);
      SentIsQuiet(b, m, c);
      SequentialOf(Sent(b, m, c), PutDone(b, m, c));
    } else {
      TailIsPut(b, m, c);
    }
  }

  // ---------------------------------------------------------------------------
  // All of it does happen

  /** One more step of a run that has reached state t. */
  lemma Then(run: seq<Action>, t: State, a: Action) returns (longer: seq<Action>)
    requires Runnable(START, run) && Run(START, run) == t && Enabled(t, a)
    ensures Runnable(START, longer) && Run(START, longer) == Step(t, a)
  {
    longer := run + [a];
    assert longer[..|run|] == run;
  }

  const ONE := Tx.Sent(1)
  const TWO := Tx.Sent(2)

  /** Two messages of two bytes; the second in the middle of the first. */
  const TORN := [Unit(0, 0), Unit(1, 0), Unit(1, 1), Unit(0, 1)]

  /** The states of a put of one message: begun; one unit sent; that queued again. */
  function Begun(size: nat): State {
    State([size], [0], [], false, [], Idle, map[0 := Send])
  }

  function PartSent(size: nat): State {
    State([size], [1], [], false, [Unit(0, 0)], Idle, map[0 := Requeue(false, 1)])
  }

  function Requeued(size: nat): State {
    State([size], [1], [0], false, [Unit(0, 0)], Idle, map[0 := Schedule(false, 1)])
  }

  function PartQueued(size: nat): State {
    State([size], [1], [0], true, [Unit(0, 0)], Idle, map[])
  }

  lemma SendsOne(size: nat)
    requires size > 1
    ensures Enabled(Begun(size), PutStep(0, ONE)) && Step(Begun(size), PutStep(0, ONE)) == PartSent(size)
  {
    assert [] + Units(0, 0, 1) == [Unit(0, 0)];
  }

  lemma QueuesRest(size: nat)
    requires size > 1
    ensures Enabled(PartSent(size), PutStep(0, ONE)) && Step(PartSent(size), PutStep(0, ONE)) == Requeued(size)
    ensures Enabled(Requeued(size), PutStep(0, ONE)) && Step(Requeued(size), PutStep(0, ONE)) == PartQueued(size)
  {
    assert map[0 := Schedule(false, 1)] - {0} == map[];
  }

  lemma BegunRun(size: nat) returns (run: seq<Action>)
    requires size > 0
    ensures Runnable(START, run) && Run(START, run) == Begun(size)
  {
    assert Step(START, Begin(size)) == Begun(size);
    run := Then([], START, Begin(size));
  }

  lemma PartSentRun(size: nat) returns (run: seq<Action>)
    requires size > 1
    ensures Runnable(START, run) && Run(START, run) == PartSent(size)
  {
    run := BegunRun(size);
    SendsOne(size);
    run := Then(run, Begun(size), PutStep(0, ONE));
  }

  lemma PartQueuedRun(size: nat) returns (run: seq<Action>)
    requires size > 1
    ensures Runnable(START, run) && Run(START, run) == PartQueued(size)
  {
    run := PartSentRun(size);
    QueuesRest(size);
    run := Then(run, PartSent(size), PutStep(0, ONE));
    run := Then(run, Requeued(size), PutStep(0, ONE));
  }

  /** A second message of two units begins while nothing is queued, and goes out whole. */
  function SecondBegun(s: State): State {
    s.(sizes := [2, 2], rd := [1, 0], puts := s.puts[1 := Send])
  }

  function SecondOut(s: State): State {
    s.(sizes := [2, 2], rd := [1, 2], sent := [Unit(0, 0), Unit(1, 0), Unit(1, 1)])
  }

  predicate FirstIsCut(s: State) {
    s.sizes == [2] && s.rd == [1] && s.queue == [] && s.sent == [Unit(0, 0)] && 1 !in s.puts
  }

  lemma SecondBegins(s: State)
    requires FirstIsCut(s)
    ensures Step(s, Begin(2)) == SecondBegun(s)
  {
  }

  lemma SecondSends(s: State)
    requires FirstIsCut(s)
    ensures Enabled(SecondBegun(s), PutStep(1, TWO)) && Step(SecondBegun(s), PutStep(1, TWO)) == SecondOut(s)
  {
    assert [Unit(0, 0)] + Units(1, 0, 2) == [Unit(0, 0), Unit(1, 0), Unit(1, 1)];
    assert s.puts[1 := Send] - {1} == s.puts;
  }

  lemma SecondGoesOut(run: seq<Action>, s: State) returns (longer: seq<Action>)
    requires Runnable(START, run) && Run(START, run) == s && FirstIsCut(s)
    ensures Runnable(START, longer) && Run(START, longer) == SecondOut(s)
  {
    SecondBegins(s);
    longer := Then(run, s, Begin(2));
    SecondSends(s);
    longer := Then(longer, SecondBegun(s), PutStep(1, TWO));
  }

  /** The wakeup has taken the rest of the message off the queue. */
  function Taken(size: nat): State {
    PartQueued(size).(queue := [], out := Busy(0, Send))
  }

  lemma TakenRun(size: nat) returns (run: seq<Action>)
    requires size > 1
    ensures Runnable(START, run) && Run(START, run) == Taken(size)
  {
    run := PartQueuedRun(size);
    assert Step(PartQueued(size), Dequeue) == Taken(size);
    run := Then(run, PartQueued(size), Dequeue);
  }

  lemma FirstFinishes(s: State)
    requires s == SecondOut(Taken(2))
    ensures Enabled(s, OutStep(ONE)) && Step(s, OutStep(ONE)).sent == TORN
  {
    assert s.sent + Units(0, 1, 1) == TORN;
  }

  /** The put comes between the wakeup's dequeue and its send. */
  lemma OvertakingRun() returns (run: seq<Action>)
    ensures Runnable(START, run) && Run(START, run).sent == TORN
  {
    run := TakenRun(2);
    run := SecondGoesOut(run, Taken(2));
    FirstFinishes(SecondOut(Taken(2)));
    run := Then(run, SecondOut(Taken(2)), OutStep(ONE));
  }

  /** The wakeup has sent one more unit of three and is about to queue the remainder. */
  function Gap(): State {
    State([3], [2], [], true, [Unit(0, 0), Unit(0, 1)], Busy(0, Requeue(false, 1)), map[])
  }

  lemma GapOpens()
    ensures Enabled(Taken(3), OutStep(ONE)) && Step(Taken(3), OutStep(ONE)) == Gap()
  {
    assert [Unit(0, 0)] + Units(0, 1, 1) == [Unit(0, 0), Unit(0, 1)];
  }

  lemma WakeupGap() returns (run: seq<Action>)
    ensures Runnable(START, run) && Run(START, run) == Gap()
  {
    run := TakenRun(3);
    GapOpens();
    run := Then(run, Taken(3), OutStep(ONE));
  }

  /** A put in that gap sends its message in the middle of the other, although none came
      between dequeue and send. */
  lemma GapRun() returns (run: seq<Action>)
    ensures Runnable(START, run)
    ensures Run(START, run).sent == [Unit(0, 0), Unit(0, 1), Unit(1, 0)]
    ensures !Undisturbed(run) && !Untorn(run)
  {
    run := WakeupGap();
    GapIsUsed();
    run := Then(run, Gap(), Begin(1));
    run := Then(run, Step(Gap(), Begin(1)), PutStep(1, ONE));
    GapIsFound(run);
  }

  lemma GapIsUsed()
    ensures var t := Step(Gap(), Begin(1));
            && Enabled(t, PutStep(1, ONE)) && Step(t, PutStep(1, ONE)).sizes == [3, 1]
            && Step(t, PutStep(1, ONE)).sent == [Unit(0, 0), Unit(0, 1), Unit(1, 0)]
  {
    var t := Gap().(sizes := [3, 1], rd := [2, 0], puts := map[1 := Send]);
    assert Step(Gap(), Begin(1)) == t;
    assert t.sent + Units(1, 0, 1) == [Unit(0, 0), Unit(0, 1), Unit(1, 0)];
  }

  lemma GapIsFound(run: seq<Action>)
    requires Runnable(START, run)
    requires Run(START, run).sent == [Unit(0, 0), Unit(0, 1), Unit(1, 0)] && Run(START, run).sizes == [3, 1]
    ensures !Undisturbed(run) && !Untorn(run)
  {
    var sizes, sent := [3, 1], [Unit(0, 0), Unit(0, 1), Unit(1, 0)];
    OrderKeptIff(run);
    IntactIff(run);
    assert sizes[..1] == [3] && [3][..0] == [];
    assert Stream(sizes)[2] == Unit(0, 2);
    assert !Follows(sizes, sent, 2);
  }

  /** The same between the send and the re-queueing of another put. */
  lemma PutGapRun() returns (run: seq<Action>)
    ensures Runnable(START, run) && Run(START, run).sent == [Unit(0, 0), Unit(1, 0), Unit(1, 1)]
    ensures Run(START, run).puts == map[0 := Requeue(false, 1)]
  {
    run := PartSentRun(2);
    run := SecondGoesOut(run, PartSent(2));
  }

  /** A send that would block queues its block before the read pointer is moved... */
  function Blocking(): State {
    State([2], [0], [], false, [Unit(0, 0)], Idle, map[0 := Requeue(true, 1)])
  }

  function Late(): State {
    State([2], [0], [0], true, [Unit(0, 0)], Idle, map[0 := Advance(1)])
  }

  lemma SendBlocks()
    ensures Enabled(Begun(2), PutStep(0, Tx.Blocked(1))) && Step(Begun(2), PutStep(0, Tx.Blocked(1))) == Blocking()
  {
    assert [] + Units(0, 0, 1) == [Unit(0, 0)];
  }

  lemma LateRun() returns (run: seq<Action>)
    ensures Runnable(START, run) && Run(START, run) == Late()
  {
    run := BegunRun(2);
    SendBlocks();
    run := Then(run, Begun(2), PutStep(0, Tx.Blocked(1)));
    BlockedIsQueued();
    run := Then(run, Blocking(), PutStep(0, ONE));
    run := Then(run, Step(Blocking(), PutStep(0, ONE)), PutStep(0, ONE));
  }

  lemma BlockedIsQueued()
    ensures Enabled(Blocking(), PutStep(0, ONE))
    ensures var s := Step(Blocking(), PutStep(0, ONE));
            Enabled(s, PutStep(0, ONE)) && Step(s, PutStep(0, ONE)) == Late()
  {
    var s := State([2], [0], [0], false, [Unit(0, 0)], Idle, map[0 := Schedule(true, 1)]);
    assert Step(Blocking(), PutStep(0, ONE)) == s;
  }

  lemma SendsAgain()
    ensures var s := Step(Late(), Dequeue);
            Enabled(s, OutStep(ONE)) && Step(s, OutStep(ONE)).sent == [Unit(0, 0), Unit(0, 0)]
  {
    assert [Unit(0, 0)] + Units(0, 0, 1) == [Unit(0, 0), Unit(0, 0)];
  }

  /** ...and a wakeup in between sends the same bytes again. */
  lemma ResendingRun() returns (run: seq<Action>)
    ensures Runnable(START, run) && Run(START, run).sent == [Unit(0, 0), Unit(0, 0)]
  {
    run := LateRun();
    run := Then(run, Late(), Dequeue);
    SendsAgain();
    run := Then(run, Step(Late(), Dequeue), OutStep(ONE));
  }

  /** A second put has found the queue busy; meanwhile the wakeup sends the rest. */
  function Waiting(): State {
    State([2, 1], [1, 0], [0], true, [Unit(0, 0)], Idle, map[1 := Tail])
  }

  function Emptied(): State {
    State([2, 1], [2, 0], [], true, [Unit(0, 0), Unit(0, 1)], Test, map[1 := Tail])
  }

  lemma QueueEmpties()
    ensures var s := Step(Waiting(), Dequeue);
            Enabled(s, OutStep(ONE)) && Step(s, OutStep(ONE)) == Emptied()
  {
    assert [Unit(0, 0)] + Units(0, 1, 1) == [Unit(0, 0), Unit(0, 1)];
  }

  lemma EmptiedRun() returns (run: seq<Action>)
    ensures Runnable(START, run) && Run(START, run) == Emptied()
  {
    run := PartQueuedRun(2);
    assert Step(PartQueued(2), Begin(1)) == Waiting();
    run := Then(run, PartQueued(2), Begin(1));
    run := Then(run, Waiting(), Dequeue);
    QueueEmpties();
    run := Then(run, Step(Waiting(), Dequeue), OutStep(ONE));
  }

  lemma AppendStrands()
    ensures var s := Emptied().(wakeup := false, out := Idle);
            && Enabled(s, PutStep(1, ONE))
            && Stranded(Step(s, PutStep(1, ONE))) && Step(s, PutStep(1, ONE)).queue == [1]
  {
    assert map[1 := Tail] - {1} == map[];
  }

  /** Before that put appends, the wakeup is cancelled. Its message is stranded. */
  lemma StrandingRun() returns (run: seq<Action>)
    ensures Runnable(START, run) && Stranded(Run(START, run)) && Run(START, run).queue == [1]
  {
    run := EmptiedRun();
    run := Then(run, Emptied(), OutStep(ONE));
    run := Then(run, Emptied().(out := Cancel), OutStep(ONE));
    AppendStrands();
    run := Then(run, Emptied().(wakeup := false, out := Idle), PutStep(1, ONE));
  }

  function Render(sent: seq<Unit>, contents: seq<seq<byte>>): seq<byte>
    requires forall i :: 0 <= i < |sent| ==> sent[i].message < |contents| && sent[i].index < |contents[sent[i].message]|
  {
    seq(|sent|, i requires 0 <= i < |sent| => contents[sent[i].message][sent[i].index])
  }

  /** On frames: two header-only messages are put, and two others are received. */
  lemma OvertakingCorrupts() returns (f: Format, es: seq<Event>, run: seq<Action>)
    ensures AllWellFormed(f, es) && es == [Event([1, 2], []), Event([3, 4], [])]
    ensures Runnable(START, run) && Run(START, run).sent == TORN
    ensures Parse(f, Render(TORN, [es[0].header, es[1].header])).events == [Event([1, 3], []), Event([4, 2], [])]
  {
    f := RawFormat(2, (h: seq<byte>) => 0);
    es := [Event([1, 2], []), Event([3, 4], [])];
    run := OvertakingRun();
    Receive.TwoHeaders([1, 3], [4, 2]);
    assert Render(TORN, [es[0].header, es[1].header]) == [1, 3] + [4, 2];
    ParseOfWire(f, [Event([1, 3], []), Event([4, 2], [])]);
  }
}
