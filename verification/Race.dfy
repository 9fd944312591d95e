/**
 * The transmitter with several reactor threads. The lock of `nonblk_put` covers one
 * `send_n` and the queue locks itself; everything between these steps is open to other
 * threads. Any number of puts and the one wakeup the reactor allows at a time are run
 * step by step here: the test of the queue, the send, the re-queueing of a remainder, the
 * scheduling and the cancelling of the wakeup, and, when the send would have blocked, the
 * read pointer that is moved only after the block has been queued.
 *
 * Messages are numbered in the order in which their puts test the queue. A put that is
 * refused leaves no trace and is not part of a run; no send fails for good, and the head
 * of the queue has room for a remainder.
 */
module Race {
  import opened Frames
  import Tx = Transmit

  /** One byte, known by its message and its place in it. */
  datatype Unit = Unit(message: nat, index: nat)

  /** What a thread does next: append to the queue; send; put the remainder in front;
      schedule a wakeup; move the read pointer over k units sent. */
  datatype Pc =
    | Tail
    | Send
    | Requeue(blocked: bool, k: nat)
    | Schedule(blocked: bool, k: nat)
    | Advance(k: nat)

  /** The thread in handle_output: not there; at work on a block it has dequeued; about to
      test the queue; about to cancel the wakeup. */
  datatype Out = Idle | Busy(message: nat, pc: Pc) | Test | Cancel

  datatype State = State(
    sizes: seq<nat>,       // of all messages put so far
    rd: seq<nat>,          // their read pointers
    queue: seq<nat>,
    wakeup: bool,
    sent: seq<Unit>,
    out: Out,
    puts: map<nat, Pc>)    // puts in progress

  datatype Action = Begin(size: nat) | PutStep(m: nat, c: Tx.Send) | Dequeue | OutStep(c: Tx.Send)

  const START := State([], [], [], false, [], Idle, map[])

  function Units(m: nat, from: nat, k: nat): (u: seq<Unit>)
    ensures |u| == k
  {
    seq(k, i requires 0 <= i => Unit(m, from + i))
  }

  function Left(s: State, m: nat): int
    requires m < |s.sizes| == |s.rd|
  {
    s.sizes[m] as int - s.rd[m] as int
  }

  predicate Possible(left: int, c: Tx.Send) {
    match c
    case Sent(k) => 0 < k <= left
    case Blocked(k) => k < left
    case Broken(_) => false
  }

  datatype Worked = Worked(s: State, next: Next)
  datatype Next = More(pc: Pc) | Done(value: nat)

  predicate Can(s: State, m: nat, pc: Pc, c: Tx.Send) {
    m < |s.sizes| == |s.rd| && (pc.Send? ==> Possible(Left(s, m), c))
  }

  /** One step of nonblk_put, or of the tail enqueue, on message m. */
  function Work(s: State, m: nat, pc: Pc, c: Tx.Send): Worked
    requires Can(s, m, pc, c)
  {
    match pc
    case Tail => Worked(s.(queue := s.queue + [m]), Done(1))
    case Send =>
      var k := Tx.BytesMoved(c);
      var t := s.(sent := s.sent + Units(m, s.rd[m], k));
      if c.Blocked? then Worked(t, More(Requeue(true, k)))
      else
        Worked(t.(rd := s.rd[m := s.rd[m] + k]), if k == Left(s, m) then Done(k) else More(Requeue(false, k)))
    case Requeue(b, k) => Worked(s.(queue := [m] + s.queue), More(Schedule(b, k)))
    case Schedule(b, k) => Worked(s.(wakeup := true), if b then More(Advance(k)) else Done(k))
    case Advance(k) => Worked(s.(rd := s.rd[m := s.rd[m] + k]), Done(k))
  }

  predicate Enabled(s: State, a: Action) {
    match a
    case Begin(size) => size > 0
    case PutStep(m, c) => m in s.puts && Can(s, m, s.puts[m], c)
    case Dequeue => s.out.Idle? && s.wakeup && s.queue != []
    case OutStep(c) => !s.out.Idle? && (s.out.Busy? ==> Can(s, s.out.message, s.out.pc, c))
  }

  function Step(s: State, a: Action): State
    requires Enabled(s, a)
  {
    match a
    case Begin(size) =>
      s.(sizes := s.sizes + [size], rd := s.rd + [0],
         puts := s.puts[|s.sizes| := if s.queue == [] then Send else Tail])
    case PutStep(m, c) =>
      var w := Work(s, m, s.puts[m], c);
      w.s.(puts := if w.next.More? then s.puts[m := w.next.pc] else s.puts - {m})
    case Dequeue => s.(queue := s.queue[1..], out := Busy(s.queue[0], Send))
    case OutStep(c) =>
      match s.out
      case Busy(m, pc) =>
        var w := Work(s, m, pc, c);
        w.s.(out := match w.next case More(next) => Busy(m, next) case Done(value) => if value != 0 then Test else Idle)
      case Test => s.(out := if s.queue == [] then Cancel else Idle)
      case Cancel => s.(wakeup := false, out := Idle)
  }

  predicate Runnable(s: State, run: seq<Action>)
    decreases |run|, 0
  {
    run == [] || (Runnable(s, run[..|run| - 1]) && Enabled(Run(s, run[..|run| - 1]), run[|run| - 1]))
  }

  function Run(s: State, run: seq<Action>): State
    requires Runnable(s, run)
    decreases |run|, 1
  {
    if run == [] then s else Step(Run(s, run[..|run| - 1]), run[|run| - 1])
  }

  predicate WellFormedState(s: State) {
    && |s.rd| == |s.sizes|
    && (forall m :: 0 <= m < |s.sizes| ==> s.sizes[m] > 0)
    && (forall i :: 0 <= i < |s.queue| ==> s.queue[i] < |s.sizes|)
    && (forall m :: m in s.puts ==> m < |s.sizes|)
    && (s.out.Busy? ==> s.out.message < |s.sizes| && !s.out.pc.Tail?)
    && (forall i :: 0 <= i < |s.sent| ==> s.sent[i].message < |s.sizes|)
  }

  lemma WorkKeepsWellFormed(s: State, m: nat, pc: Pc, c: Tx.Send)
    requires WellFormedState(s) && Can(s, m, pc, c)
    ensures var w := Work(s, m, pc, c);
            && WellFormedState(w.s) && w.s.sizes == s.sizes && w.s.puts == s.puts && w.s.out == s.out
            && (w.next.More? ==> !w.next.pc.Tail?)
  {
  }

  lemma StepKeepsWellFormed(s: State, a: Action)
    requires WellFormedState(s) && Enabled(s, a)
    ensures WellFormedState(Step(s, a))
  {
    match a
    case PutStep(m, c) => WorkKeepsWellFormed(s, m, s.puts[m], c);
    case OutStep(c) =>
      if s.out.Busy? {
        WorkKeepsWellFormed(s, s.out.message, s.out.pc, c);
      }
    case Dequeue =>
    case Begin(_) =>
  }

  lemma {:induction false} RunIsWellFormed(run: seq<Action>)
    requires Runnable(START, run)
    ensures WellFormedState(Run(START, run))
    decreases |run|
  {
    if run != [] {
      RunIsWellFormed(run[..|run| - 1]);
      StepKeepsWellFormed(Run(START, run[..|run| - 1]), run[|run| - 1]);
    }
  }

  // ---------------------------------------------------------------------------
  // What a step does to the wire

  /** Units of the block that have been sent and over which the pointer is yet to move. */
  function Behind(pc: Pc): nat {
    match pc
    case Requeue(b, k) => if b then k else 0
    case Schedule(b, k) => if b then k else 0
    case Advance(k) => k
    case _ => 0
  }

  function Unadvanced(s: State, m: nat): nat {
    (if m in s.puts then Behind(s.puts[m]) else 0)
    + (if s.out.Busy? && s.out.message == m then Behind(s.out.pc) else 0)
  }

  /** How far each message has got, by its read pointer and what that lags behind. */
  function Progress(s: State): (p: seq<nat>)
    requires |s.rd| == |s.sizes|
    ensures |p| == |s.sizes|
  {
    seq(|s.sizes|, m requires 0 <= m < |s.sizes| => s.rd[m] + Unadvanced(s, m))
  }

  /** The step is a send of message m that gets at least one unit out. */
  predicate Moves(s: State, a: Action, m: nat) {
    match a
    case PutStep(n, c) => n == m && m in s.puts && s.puts[m].Send? && Tx.BytesMoved(c) > 0
    case OutStep(c) => s.out == Busy(m, Send) && Tx.BytesMoved(c) > 0
    case _ => false
  }

  function Count(a: Action): nat
    requires a.PutStep? || a.OutStep?
  {
    Tx.BytesMoved(a.c)
  }

  function Moved(pc: Pc, c: Tx.Send): nat {
    if pc.Send? then Tx.BytesMoved(c) else 0
  }

  function BehindNext(next: Next): nat {
    if next.More? then Behind(next.pc) else 0
  }

  /** What one step of work does to its own message, and to nothing else. */
  lemma {:induction false} WorkEffect(s: State, m: nat, pc: Pc, c: Tx.Send)
    requires WellFormedState(s) && Can(s, m, pc, c)
    ensures var w := Work(s, m, pc, c);
            && w.s.sizes == s.sizes && |w.s.rd| == |s.rd|
            && w.s.puts == s.puts && w.s.out == s.out
            && w.s.sent == s.sent + Units(m, s.rd[m], Moved(pc, c))
            && w.s.rd[m] + BehindNext(w.next) == s.rd[m] + Behind(pc) + Moved(pc, c)
            && forall n :: 0 <= n < |s.rd| && n != m ==> w.s.rd[n] == s.rd[n]
  {
    assert s.sent + Units(m, s.rd[m], 0) == s.sent;
  }

  lemma ProgressMoves(s: State, s': State, m: nat, k: nat)
    requires |s.rd| == |s.sizes| == |s'.rd| && s'.sizes == s.sizes && m < |s.sizes|
    requires s'.rd[m] + Unadvanced(s', m) == s.rd[m] + Unadvanced(s, m) + k
    requires forall n :: 0 <= n < |s.sizes| && n != m ==> s'.rd[n] + Unadvanced(s', n) == s.rd[n] + Unadvanced(s, n)
    ensures Progress(s') == Progress(s)[m := Progress(s)[m] + k]
  {
  }

  lemma {:induction false} PutProgress(s: State, m: nat, c: Tx.Send)
    requires WellFormedState(s) && Enabled(s, PutStep(m, c))
    ensures var s', k := Step(s, PutStep(m, c)), Moved(s.puts[m], c);
            && s'.sizes == s.sizes && |s'.rd| == |s.rd| && s'.sent == s.sent + Units(m, s.rd[m], k)
            && Progress(s') == Progress(s)[m := Progress(s)[m] + k]
  {
    WorkEffect(s, m, s.puts[m], c);
    ProgressMoves(s, Step(s, PutStep(m, c)), m, Moved(s.puts[m], c));
  }

  lemma {:induction false} OutProgress(s: State, c: Tx.Send)
    requires WellFormedState(s) && Enabled(s, OutStep(c)) && s.out.Busy?
    ensures var s', m, k := Step(s, OutStep(c)), s.out.message, Moved(s.out.pc, c);
            && s'.sizes == s.sizes && |s'.rd| == |s.rd| && s'.sent == s.sent + Units(m, s.rd[m], k)
            && Progress(s') == Progress(s)[m := Progress(s)[m] + k]
  {
    var m := s.out.message;
    WorkEffect(s, m, s.out.pc, c);
    ProgressMoves(s, Step(s, OutStep(c)), m, Moved(s.out.pc, c));
  }

  lemma {:induction false} MoveEffect(s: State, a: Action, m: nat)
    requires WellFormedState(s) && Enabled(s, a) && Moves(s, a, m)
    ensures var s' := Step(s, a);
            && m < |s.sizes| && s'.sizes == s.sizes && s.rd[m] + Count(a) <= s.sizes[m]
            && |s'.rd| == |s.rd| && s'.sent == s.sent + Units(m, s.rd[m], Count(a))
            && Progress(s') == Progress(s)[m := Progress(s)[m] + Count(a)]
  {
    if a.PutStep? {
      PutProgress(s, m, a.c);
    } else {
      OutProgress(s, a.c);
    }
  }

  lemma {:induction false} OtherEffect(s: State, a: Action)
    requires WellFormedState(s) && Enabled(s, a) && !a.Begin? && forall m: nat :: !Moves(s, a, m)
    ensures var s' := Step(s, a);
            s'.sizes == s.sizes && |s'.rd| == |s.rd| && s'.sent == s.sent && Progress(s') == Progress(s)
  {
    if a.PutStep? {
      assert !Moves(s, a, a.m);
      assert s.sent + Units(a.m, s.rd[a.m], 0) == s.sent;
      PutProgress(s, a.m, a.c);
    } else if a.OutStep? && s.out.Busy? {
      var m := s.out.message;
      assert !Moves(s, a, m);
      assert s.sent + Units(m, s.rd[m], 0) == s.sent;
      OutProgress(s, a.c);
    }
  }

  lemma BeginEffect(s: State, size: nat)
    requires WellFormedState(s) && size > 0
    ensures var s' := Step(s, Begin(size));
            s'.sizes == s.sizes + [size] && s'.sent == s.sent && Progress(s') == Progress(s) + [0]
  {
    var s' := Step(s, Begin(size));
    assert |s.sizes| !in s.puts;
    forall n | 0 <= n < |s.sizes|
      ensures Progress(s')[n] == Progress(s)[n]
    {
    }
  }

  // ---------------------------------------------------------------------------
  // Order

  /** All messages in full, one after the other. */
  function Stream(sizes: seq<nat>): seq<Unit> {
    if sizes == [] then [] else Stream(sizes[..|sizes| - 1]) + Units(|sizes| - 1, 0, sizes[|sizes| - 1])
  }

  /** A send of a message while an earlier one has not gone out completely, or of a block
      whose read pointer has not been moved yet. */
  ghost predicate Misplaced(s: State, a: Action)
    requires |s.rd| == |s.sizes|
  {
    exists m: nat :: m < |s.sizes| && Moves(s, a, m) && OutOfTurn(s, m)
  }

  predicate OutOfTurn(s: State, m: nat)
    requires m < |s.sizes| == |s.rd|
  {
    Unadvanced(s, m) > 0 || exists n: nat :: n < m && Progress(s)[n] < s.sizes[n]
  }

  lemma OneMoves(s: State, a: Action, m: nat, n: nat)
    requires Moves(s, a, m) && Moves(s, a, n)
    ensures m == n
  {
  }

  ghost predicate Undisturbed(run: seq<Action>)
    requires Runnable(START, run)
    decreases |run|
  {
    run == [] || (
      var n := |run| - 1;
      RunIsWellFormed(run[..n]);
      Undisturbed(run[..n]) && !Misplaced(Run(START, run[..n]), run[n]))
  }

  /** The first n messages are out, message n is part-way, the others have not begun. */
  predicate Front(sizes: seq<nat>, p: seq<nat>, sent: seq<Unit>, n: nat)
    requires |p| == |sizes|
  {
    && n <= |sizes|
    && (forall m :: 0 <= m < n ==> p[m] == sizes[m])
    && (forall m :: n < m < |sizes| ==> p[m] == 0)
    && (n < |sizes| ==> p[n] < sizes[n])
    && sent == Stream(sizes[..n]) + if n < |sizes| then Units(n, 0, p[n]) else []
  }

  lemma UnitsSplit(m: nat, from: nat, j: nat, k: nat)
    ensures Units(m, from, j + k) == Units(m, from, j) + Units(m, from + j, k)
  {
  }

  lemma StreamSnoc(sizes: seq<nat>, n: nat)
    requires n < |sizes|
    ensures Stream(sizes[..n + 1]) == Stream(sizes[..n]) + Units(n, 0, sizes[n])
  {
    assert sizes[..n + 1][..n] == sizes[..n];
  }

  lemma {:induction false} StreamPrefix(sizes: seq<nat>, n: nat)
    requires n <= |sizes|
    ensures Stream(sizes[..n]) <= Stream(sizes)
    decreases |sizes| - n
  {
    if n < |sizes| {
      StreamSnoc(sizes, n);
      StreamPrefix(sizes, n + 1);
    } else {
      assert sizes[..n] == sizes;
    }
  }

  /** The next unit of the stream after a proper prefix. */
  lemma FrontNext(sizes: seq<nat>, p: seq<nat>, sent: seq<Unit>, n: nat)
    requires |p| == |sizes| && Front(sizes, p, sent, n)
    ensures sent <= Stream(sizes)
    ensures n < |sizes| ==> |sent| < |Stream(sizes)| && Stream(sizes)[|sent|] == Unit(n, p[n])
    ensures n == |sizes| ==> sent == Stream(sizes)
  {
    if n < |sizes| {
      StreamSnoc(sizes, n);
      StreamPrefix(sizes, n + 1);
      UnitsSplit(n, 0, p[n], sizes[n] - p[n]);
      var upTo := Stream(sizes[..n + 1]);
      assert upTo == sent + Units(n, p[n], sizes[n] - p[n]);
      assert upTo[|sent|] == Unit(n, p[n]);
    } else {
      assert sizes[..n] == sizes;
    }
  }

  lemma FrontMoves(sizes: seq<nat>, p: seq<nat>, sent: seq<Unit>, n: nat, k: nat)
    requires |p| == |sizes| && Front(sizes, p, sent, n) && n < |sizes| && p[n] + k <= sizes[n]
    requires forall m :: 0 <= m < |sizes| ==> sizes[m] > 0
    ensures var p', sent' := p[n := p[n] + k], sent + Units(n, p[n], k);
            Front(sizes, p', sent', n) || Front(sizes, p', sent', n + 1)
  {
    UnitsSplit(n, 0, p[n], k);
    Assoc(Stream(sizes[..n]), Units(n, 0, p[n]), Units(n, p[n], k));
    if p[n] + k == sizes[n] {
      StreamSnoc(sizes, n);
      if n + 1 < |sizes| {
        assert Units(n + 1, 0, 0) == [];
      }
    }
  }

  lemma FrontBegins(sizes: seq<nat>, p: seq<nat>, sent: seq<Unit>, n: nat, size: nat)
    requires |p| == |sizes| && Front(sizes, p, sent, n) && size > 0
    ensures Front(sizes + [size], p + [0], sent, n)
  {
    assert (sizes + [size])[..n] == sizes[..n];
    if n == |sizes| {
      assert Units(n, 0, 0) == [];
    }
  }

  /** A send at any other place leaves the stream. */
  lemma FrontLeft(sizes: seq<nat>, p: seq<nat>, sent: seq<Unit>, n: nat, m: nat, from: nat, k: nat)
    requires |p| == |sizes| && Front(sizes, p, sent, n) && k > 0 && m < |sizes|
    requires from < p[m] || exists j: nat :: j < m && p[j] < sizes[j]
    ensures !(sent + Units(m, from, k) <= Stream(sizes))
  {
    FrontNext(sizes, p, sent, n);
    assert (sent + Units(m, from, k))[|sent|] == Unit(m, from);
    if n < |sizes| {
      assert Unit(m, from) != Unit(n, p[n]);
    }
  }

  /** Once the wire has left the stream it never comes back. */
  lemma NeverBack(sizes: seq<nat>, sent: seq<Unit>, size: nat)
    requires !(sent <= Stream(sizes))
    requires forall i :: 0 <= i < |sent| ==> sent[i].message < |sizes|
    ensures !(sent <= Stream(sizes + [size]))
  {
    var st, all := Stream(sizes), Stream(sizes + [size]);
    assert (sizes + [size])[..|sizes|] == sizes;
    assert all == st + Units(|sizes|, 0, size);
    assert size > 0 ==> all[|st|] == Unit(|sizes|, 0);
    assert sent <= all && |sent| <= |st| ==> sent <= st;
  }

  lemma StepOrder(s: State, a: Action, n: nat)
    requires WellFormedState(s) && Enabled(s, a) && Front(s.sizes, Progress(s), s.sent, n)
    ensures var s' := Step(s, a);
            && |s'.rd| == |s'.sizes|
            && (!Misplaced(s, a) ==> exists n' :: Front(s'.sizes, Progress(s'), s'.sent, n'))
            && (Misplaced(s, a) ==> !(s'.sent <= Stream(s'.sizes)))
  {
    var s' := Step(s, a);
    StepKeepsWellFormed(s, a);
    if a.Begin? {
      BeginEffect(s, a.size);
      FrontBegins(s.sizes, Progress(s), s.sent, n, a.size);
    } else if m: nat :| Moves(s, a, m) {
      MoveOrder(s, a, m, n);
      if Misplaced(s, a) {
        var m': nat :| m' < |s.sizes| && Moves(s, a, m') && OutOfTurn(s, m');
        OneMoves(s, a, m, m');
      }
    } else {
      OtherEffect(s, a);
    }
  }

  lemma {:induction false} MoveOrder(s: State, a: Action, m: nat, n: nat)
    requires WellFormedState(s) && Enabled(s, a) && Front(s.sizes, Progress(s), s.sent, n) && Moves(s, a, m)
    ensures var s' := Step(s, a);
            && m < |s.sizes| && |s'.rd| == |s'.sizes|
            && (!OutOfTurn(s, m) ==> exists n' :: Front(s'.sizes, Progress(s'), s'.sent, n'))
            && (OutOfTurn(s, m) ==> !(s'.sent <= Stream(s'.sizes)))
  {
    MoveEffect(s, a, m);
    StepKeepsWellFormed(s, a);
    var p := Progress(s);
    if OutOfTurn(s, m) {
      FrontLeft(s.sizes, p, s.sent, n, m, s.rd[m], Count(a));
    } else {
      assert p[m] == s.rd[m];
      assert n == m;
      FrontMoves(s.sizes, p, s.sent, n, Count(a));
    }
  }

  lemma StepStaysOff(s: State, a: Action)
    requires WellFormedState(s) && Enabled(s, a) && !(s.sent <= Stream(s.sizes))
    ensures !(Step(s, a).sent <= Stream(Step(s, a).sizes))
  {
    if a.Begin? {
      NeverBack(s.sizes, s.sent, a.size);
    } else if m: nat :| Moves(s, a, m) {
      MoveEffect(s, a, m);
    } else {
      OtherEffect(s, a);
    }
  }

  lemma {:induction false} FrontIff(run: seq<Action>)
    requires Runnable(START, run)
    ensures var s := Run(START, run);
            && |s.rd| == |s.sizes|
            && (Undisturbed(run) ==> exists n :: Front(s.sizes, Progress(s), s.sent, n))
            && (!Undisturbed(run) ==> !(s.sent <= Stream(s.sizes)))
    decreases |run|
  {
    RunIsWellFormed(run);
    if run == [] {
      assert Front(START.sizes, Progress(START), START.sent, 0);
    } else {
      var g, a := run[..|run| - 1], run[|run| - 1];
      var s := Run(START, g);
      RunIsWellFormed(g);
      FrontIff(g);
      if Undisturbed(g) {
        var n :| Front(s.sizes, Progress(s), s.sent, n);
        StepOrder(s, a, n);
      } else {
        StepStaysOff(s, a);
      }
    }
  }

  /** In every interleaving of puts and wakeups, step by step: the wire carries a prefix of
      the messages put, in the order in which their puts tested the queue, each byte once,
      if and only if no thread sent data of a message while an earlier one was not out, or
      from a block whose read pointer was still to be moved. */
  lemma OrderKeptIff(run: seq<Action>)
    requires Runnable(START, run)
    ensures Run(START, run).sent <= Stream(Run(START, run).sizes) <==> Undisturbed(run)
  {
    FrontIff(run);
    if Undisturbed(run) {
      var s := Run(START, run);
      var n :| Front(s.sizes, Progress(s), s.sent, n);
      FrontNext(s.sizes, Progress(s), s.sent, n);
    }
  }

  // ---------------------------------------------------------------------------
  // Whole messages, in whatever order

  predicate Ends(sizes: seq<nat>, u: Unit) {
    u.message < |sizes| && u.index + 1 == sizes[u.message]
  }

  /** A unit on the wire is the first of its message and comes after the last of another,
      or it comes right after its predecessor. */
  predicate Follows(sizes: seq<nat>, sent: seq<Unit>, i: nat)
    requires i < |sent|
  {
    if sent[i].index == 0 then i == 0 || Ends(sizes, sent[i - 1])
    else i > 0 && sent[i - 1] == Unit(sent[i].message, sent[i].index - 1)
  }

  /** The wire is a sequence of whole messages, only the last perhaps unfinished, and no
      unit is on it twice. What a receiver makes of it are the messages that were put. */
  predicate Intact(sizes: seq<nat>, sent: seq<Unit>) {
    && (forall i :: 0 <= i < |sent| ==> Follows(sizes, sent, i))
    && (forall i, j :: 0 <= i < j < |sent| ==> sent[i] != sent[j])
  }

  /** A send while another message has gone out in part, or from a block whose read pointer
      has not been moved yet. */
  ghost predicate Tears(s: State, a: Action)
    requires |s.rd| == |s.sizes|
  {
    exists m: nat :: m < |s.sizes| && Moves(s, a, m) && BreaksIn(s, m)
  }

  predicate BreaksIn(s: State, m: nat)
    requires m < |s.sizes| == |s.rd|
  {
    Unadvanced(s, m) > 0 || exists n: nat :: n < |s.sizes| && n != m && 0 < Progress(s)[n] < s.sizes[n]
  }

  ghost predicate Untorn(run: seq<Action>)
    requires Runnable(START, run)
    decreases |run|
  {
    run == [] || (
      var n := |run| - 1;
      RunIsWellFormed(run[..n]);
      Untorn(run[..n]) && !Tears(Run(START, run[..n]), run[n]))
  }

  /** What is on the wire of each message is its progress, and the last unit on it is the
      latest of its message; a message part-way is the one sent last. */
  predicate Tally(sizes: seq<nat>, p: seq<nat>, sent: seq<Unit>)
    requires |p| == |sizes|
  {
    && (forall m :: 0 <= m < |sizes| ==> p[m] <= sizes[m])
    && (forall i :: 0 <= i < |sent| ==> sent[i].message < |sizes| && sent[i].index < p[sent[i].message])
    && (forall m: nat, j: nat :: m < |sizes| && j < p[m] ==> Unit(m, j) in sent)
    && (sent != [] ==> p[sent[|sent| - 1].message] == sent[|sent| - 1].index + 1)
    && (forall m :: 0 <= m < |sizes| && 0 < p[m] < sizes[m] ==> sent != [] && sent[|sent| - 1].message == m)
  }

  lemma IntactPrefix(sizes: seq<nat>, sent: seq<Unit>, more: seq<Unit>)
    requires Intact(sizes, sent + more)
    ensures Intact(sizes, sent)
  {
    var all := sent + more;
    assert forall i :: 0 <= i < |sent| ==> all[i] == sent[i];
    forall i | 0 <= i < |sent|
      ensures Follows(sizes, sent, i)
    {
      assert Follows(sizes, all, i);
    }
  }

  lemma IntactBegins(sizes: seq<nat>, sent: seq<Unit>, size: nat)
    requires forall i :: 0 <= i < |sent| ==> sent[i].message < |sizes|
    ensures Intact(sizes + [size], sent) <==> Intact(sizes, sent)
  {
    forall i | 0 <= i < |sent|
      ensures Follows(sizes + [size], sent, i) <==> Follows(sizes, sent, i)
    {
    }
  }

  lemma UnitsFollow(sizes: seq<nat>, sent: seq<Unit>, m: nat, from: nat, k: nat)
    requires forall i :: 0 <= i < |sent| ==> Follows(sizes, sent, i)
    requires from == 0 ==> sent == [] || Ends(sizes, sent[|sent| - 1])
    requires from > 0 ==> sent != [] && sent[|sent| - 1] == Unit(m, from - 1)
    ensures var all := sent + Units(m, from, k);
            forall i :: 0 <= i < |all| ==> Follows(sizes, all, i)
  {
    var all := sent + Units(m, from, k);
    forall i | 0 <= i < |all|
      ensures Follows(sizes, all, i)
    {
      if i < |sent| {
        assert Follows(sizes, sent, i);
      } else if i > |sent| {
        assert all[i] == Unit(m, from + (i - |sent|)) && all[i - 1] == Unit(m, from + (i - 1 - |sent|));
      }
    }
  }

  lemma UnitsAreNew(p: seq<nat>, sent: seq<Unit>, m: nat, k: nat)
    requires m < |p| && forall i :: 0 <= i < |sent| && sent[i].message == m ==> sent[i].index < p[m]
    requires forall i, j :: 0 <= i < j < |sent| ==> sent[i] != sent[j]
    ensures var all := sent + Units(m, p[m], k);
            forall i, j :: 0 <= i < j < |all| ==> all[i] != all[j]
  {
  }

  /** A send that tears nothing keeps the messages whole. */
  lemma IntactMoves(sizes: seq<nat>, p: seq<nat>, sent: seq<Unit>, m: nat, k: nat)
    requires |p| == |sizes| && Intact(sizes, sent) && Tally(sizes, p, sent)
    requires m < |sizes| && 0 < k && p[m] + k <= sizes[m]
    requires forall n: nat :: n < |sizes| && n != m ==> p[n] == 0 || p[n] >= sizes[n]
    ensures Intact(sizes, sent + Units(m, p[m], k))
    ensures Tally(sizes, p[m := p[m] + k], sent + Units(m, p[m], k))
  {
    UnitsFollow(sizes, sent, m, p[m], k);
    UnitsAreNew(p, sent, m, k);
    TallyMoves(sizes, p, sent, m, k);
  }

  lemma TallyMoves(sizes: seq<nat>, p: seq<nat>, sent: seq<Unit>, m: nat, k: nat)
    requires |p| == |sizes| && Tally(sizes, p, sent)
    requires m < |sizes| && 0 < k && p[m] + k <= sizes[m]
    requires forall n: nat :: n < |sizes| && n != m ==> p[n] == 0 || p[n] >= sizes[n]
    ensures Tally(sizes, p[m := p[m] + k], sent + Units(m, p[m], k))
  {
    var all, p' := sent + Units(m, p[m], k), p[m := p[m] + k];
    assert all[|all| - 1] == Unit(m, p[m] + k - 1);
    forall n: nat, j: nat | n < |sizes| && j < p'[n]
      ensures Unit(n, j) in all
    {
      if n == m && j >= p[m] {
        assert all[|sent| + (j - p[m])] == Unit(m, j);
      } else {
        assert Unit(n, j) in sent;
      }
    }
  }

  /** A send that tears breaks them. */
  lemma TornMoves(sizes: seq<nat>, p: seq<nat>, sent: seq<Unit>, m: nat, from: nat, k: nat)
    requires |p| == |sizes| && Tally(sizes, p, sent) && m < |sizes| && k > 0
    requires from < p[m] || exists n: nat :: n < |sizes| && n != m && 0 < p[n] < sizes[n]
    ensures !Intact(sizes, sent + Units(m, from, k))
  {
    var all := sent + Units(m, from, k);
    assert all[|sent|] == Unit(m, from);
    if from < p[m] {
      assert Unit(m, from) in sent;
      var i :| 0 <= i < |sent| && sent[i] == Unit(m, from);
      assert all[i] == all[|sent|];
    } else {
      assert sent != [] && all[|sent| - 1] == sent[|sent| - 1];
      assert !Follows(sizes, all, |sent|);
    }
  }

  lemma TallyBegins(sizes: seq<nat>, p: seq<nat>, sent: seq<Unit>, size: nat)
    requires |p| == |sizes| && Tally(sizes, p, sent)
    ensures Tally(sizes + [size], p + [0], sent)
  {
  }

  lemma StepIntact(s: State, a: Action)
    requires WellFormedState(s) && Enabled(s, a)
    requires Intact(s.sizes, s.sent) && Tally(s.sizes, Progress(s), s.sent)
    ensures var s' := Step(s, a);
            && |s'.rd| == |s'.sizes|
            && (!Tears(s, a) ==> Intact(s'.sizes, s'.sent) && Tally(s'.sizes, Progress(s'), s'.sent))
            && (Tears(s, a) ==> !Intact(s'.sizes, s'.sent))
  {
    StepKeepsWellFormed(s, a);
    if a.Begin? {
      BeginEffect(s, a.size);
      IntactBegins(s.sizes, s.sent, a.size);
      TallyBegins(s.sizes, Progress(s), s.sent, a.size);
    } else if m: nat :| Moves(s, a, m) {
      MoveIntact(s, a, m);
      if Tears(s, a) {
        var m': nat :| m' < |s.sizes| && Moves(s, a, m') && BreaksIn(s, m');
        OneMoves(s, a, m, m');
      }
    } else {
      OtherEffect(s, a);
    }
  }

  lemma {:induction false} MoveIntact(s: State, a: Action, m: nat)
    requires WellFormedState(s) && Enabled(s, a) && Moves(s, a, m)
    requires Intact(s.sizes, s.sent) && Tally(s.sizes, Progress(s), s.sent)
    ensures var s' := Step(s, a);
            && m < |s.sizes| && |s'.rd| == |s'.sizes|
            && (!BreaksIn(s, m) ==> Intact(s'.sizes, s'.sent) && Tally(s'.sizes, Progress(s'), s'.sent))
            && (BreaksIn(s, m) ==> !Intact(s'.sizes, s'.sent))
  {
    MoveEffect(s, a, m);
    if BreaksIn(s, m) {
      MoveTears(s, Progress(s), m, Count(a));
    } else {
      MoveKeeps(s, Progress(s), m, Count(a));
    }
  }

  lemma {:induction false} MoveKeeps(s: State, p: seq<nat>, m: nat, k: nat)
    requires |s.rd| == |s.sizes| && p == Progress(s) && Intact(s.sizes, s.sent) && Tally(s.sizes, p, s.sent)
    requires m < |s.sizes| && k > 0 && s.rd[m] + k <= s.sizes[m] && !BreaksIn(s, m)
    ensures Intact(s.sizes, s.sent + Units(m, s.rd[m], k))
    ensures Tally(s.sizes, p[m := p[m] + k], s.sent + Units(m, s.rd[m], k))
  {
    assert p[m] == s.rd[m];
    IntactMoves(s.sizes, p, s.sent, m, k);
  }

  lemma {:induction false} MoveTears(s: State, p: seq<nat>, m: nat, k: nat)
    requires |s.rd| == |s.sizes| && p == Progress(s) && Tally(s.sizes, p, s.sent)
    requires m < |s.sizes| && k > 0 && BreaksIn(s, m)
    ensures !Intact(s.sizes, s.sent + Units(m, s.rd[m], k))
  {
    TornMoves(s.sizes, p, s.sent, m, s.rd[m], k);
  }

  lemma StepStaysTorn(s: State, a: Action)
    requires WellFormedState(s) && Enabled(s, a) && !Intact(s.sizes, s.sent)
    ensures !Intact(Step(s, a).sizes, Step(s, a).sent)
  {
    if a.Begin? {
      IntactBegins(s.sizes, s.sent, a.size);
    } else if m: nat :| Moves(s, a, m) {
      MoveEffect(s, a, m);
      if Intact(s.sizes, Step(s, a).sent) {
        IntactPrefix(s.sizes, s.sent, Units(m, s.rd[m], Count(a)));
      }
    } else {
      OtherEffect(s, a);
    }
  }

  lemma {:induction false} TallyIff(run: seq<Action>)
    requires Runnable(START, run)
    ensures var s := Run(START, run);
            && |s.rd| == |s.sizes|
            && (Untorn(run) ==> Intact(s.sizes, s.sent) && Tally(s.sizes, Progress(s), s.sent))
            && (!Untorn(run) ==> !Intact(s.sizes, s.sent))
    decreases |run|
  {
    RunIsWellFormed(run);
    if run != [] {
      var g, a := run[..|run| - 1], run[|run| - 1];
      RunIsWellFormed(g);
      TallyIff(g);
      if Untorn(g) {
        StepIntact(Run(START, g), a);
      } else {
        StepStaysTorn(Run(START, g), a);
      }
    }
  }

  /** In every interleaving: the wire is a sequence of whole messages if and only if no
      thread sent while another message was out in part, or from a block whose read pointer
      was still to be moved. */
  lemma IntactIff(run: seq<Action>)
    requires Runnable(START, run)
    ensures Intact(Run(START, run).sizes, Run(START, run).sent) <==> Untorn(run)
  {
    TallyIff(run);
  }

  // ---------------------------------------------------------------------------
  // Wakeups

  predicate Scheduling(s: State) {
    (exists m :: m in s.puts && s.puts[m].Schedule?) || (s.out.Busy? && s.out.pc.Schedule?)
  }

  /** Output is queued, no wakeup is registered and no thread is about to register one. */
  predicate Unserved(s: State) {
    s.queue != [] && !s.wakeup && !Scheduling(s)
  }

  /** The wakeup is cancelled although something has been queued since the test, or a block
      is appended to a queue that has been drained since it was found busy. */
  predicate Strands(s: State, a: Action) {
    match a
    case OutStep(_) => s.out.Cancel? && s.queue != [] && !Scheduling(s)
    case PutStep(m, _) => m in s.puts && s.puts[m].Tail? && !s.wakeup && !Scheduling(s)
    case _ => false
  }

  /** A remainder is queued, whose thread goes on to schedule a wakeup. */
  predicate Serves(s: State, a: Action) {
    match a
    case OutStep(_) => s.out.Busy? && s.out.pc.Requeue?
    case PutStep(m, _) => m in s.puts && s.puts[m].Requeue?
    case _ => false
  }

  predicate Overlooked(run: seq<Action>)
    requires Runnable(START, run)
    decreases |run|
  {
    run != [] && (
      var n := |run| - 1;
      var s := Run(START, run[..n]);
      Strands(s, run[n]) || (Overlooked(run[..n]) && !Serves(s, run[n])))
  }

  lemma PutServed(s: State, a: Action)
    requires WellFormedState(s) && a.PutStep? && Enabled(s, a)
    ensures Unserved(Step(s, a)) <==> (Unserved(s) && !Serves(s, a)) || Strands(s, a)
  {
    var s', pc := Step(s, a), s.puts[a.m];
    if pc.Requeue? {
      assert s'.puts[a.m].Schedule?;
    } else if !pc.Schedule? {
      assert forall m :: m != a.m ==> (m in s'.puts <==> m in s.puts);
      assert Scheduling(s') == Scheduling(s);
    }
  }

  lemma OutServed(s: State, a: Action)
    requires WellFormedState(s) && a.OutStep? && Enabled(s, a)
    ensures Unserved(Step(s, a)) <==> (Unserved(s) && !Serves(s, a)) || Strands(s, a)
  {
  }

  lemma StepServed(s: State, a: Action)
    requires WellFormedState(s) && Enabled(s, a)
    ensures Unserved(Step(s, a)) <==> (Unserved(s) && !Serves(s, a)) || Strands(s, a)
  {
    match a
    case PutStep(_, _) => PutServed(s, a);
    case OutStep(_) => OutServed(s, a);
    case Dequeue =>
    case Begin(size) =>
      var s' := Step(s, a);
      assert |s.sizes| !in s.puts;
      assert forall m :: m in s.puts ==> m in s'.puts && s'.puts[m] == s.puts[m];
      assert Scheduling(s') == Scheduling(s);
  }

  /** In every interleaving: output is queued with no wakeup registered or about to be if
      and only if a cancel or an append came too late and no remainder was queued since. */
  lemma {:induction false} ServedIff(run: seq<Action>)
    requires Runnable(START, run)
    ensures Unserved(Run(START, run)) <==> Overlooked(run)
    decreases |run|
  {
    if run != [] {
      var n := |run| - 1;
      RunIsWellFormed(run[..n]);
      ServedIff(run[..n]);
      StepServed(Run(START, run[..n]), run[n]);
    }
  }

  /** A wakeup is registered, nothing is queued, and no wakeup is under way to cancel it. */
  predicate Vain(s: State) {
    s.wakeup && s.queue == [] && s.out.Idle?
  }

  /** A put registers the wakeup for a block that has been taken off the queue already. */
  predicate Misregisters(s: State, a: Action) {
    a.PutStep? && a.m in s.puts && s.puts[a.m].Schedule? && s.queue == [] && s.out.Idle?
  }

  predicate Fills(s: State, a: Action) {
    a.PutStep? && a.m in s.puts && (s.puts[a.m].Tail? || s.puts[a.m].Requeue?)
  }

  predicate InVain(run: seq<Action>)
    requires Runnable(START, run)
    decreases |run|
  {
    run != [] && (
      var n := |run| - 1;
      var s := Run(START, run[..n]);
      Misregisters(s, run[n]) || (InVain(run[..n]) && !Fills(s, run[n])))
  }

  /** A block the wakeup has queued again stays queued until the wakeup is over. */
  predicate QueuedAgain(s: State) {
    s.out.Busy? && (s.out.pc.Schedule? || s.out.pc.Advance?) ==> s.queue != []
  }

  lemma StepVain(s: State, a: Action)
    requires WellFormedState(s) && QueuedAgain(s) && Enabled(s, a)
    ensures QueuedAgain(Step(s, a))
    ensures Vain(Step(s, a)) <==> (Vain(s) && !Fills(s, a)) || Misregisters(s, a)
  {
  }

  lemma {:induction false} VainIff(run: seq<Action>)
    requires Runnable(START, run)
    ensures QueuedAgain(Run(START, run))
    ensures Vain(Run(START, run)) <==> InVain(run)
    decreases |run|
  {
    if run != [] {
      var n := |run| - 1;
      RunIsWellFormed(run[..n]);
      VainIff(run[..n]);
      StepVain(Run(START, run[..n]), run[n]);
    }
  }

  /** Whenever no thread is at work, a wakeup is registered exactly when output is queued, if
      and only if neither happened in the run: output left unserved, or a wakeup registered
      in vain. */
  lemma WakeupKeptIff(run: seq<Action>)
    requires Runnable(START, run) && Run(START, run).out.Idle? && Run(START, run).puts == map[]
    ensures var s := Run(START, run);
            (s.wakeup <==> s.queue != []) <==> !Overlooked(run) && !InVain(run)
  {
    ServedIff(run);
    VainIff(run);
  }

  /** Unserved, and no thread left that could queue a remainder. */
  predicate Stranded(s: State) {
    Unserved(s) && s.out.Idle? && forall m :: m in s.puts ==> s.puts[m].Tail? || s.puts[m].Advance?
  }

  lemma StepStaysStranded(s: State, a: Action)
    requires Stranded(s) && Enabled(s, a)
    ensures Stranded(Step(s, a)) && Step(s, a).sent == s.sent
  {
  }

  /** Stranded output is never sent, whatever is put later. */
  lemma {:induction false} StrandedForever(s: State, run: seq<Action>)
    requires Stranded(s) && Runnable(s, run)
    ensures Stranded(Run(s, run)) && Run(s, run).sent == s.sent
    decreases |run|
  {
    if run != [] {
      StrandedForever(s, run[..|run| - 1]);
      StepStaysStranded(Run(s, run[..|run| - 1]), run[|run| - 1]);
    }
  }
}
