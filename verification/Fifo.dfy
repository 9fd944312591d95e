/**
 * End to end: a transmitter and a receiver joined by a byte stream. The adversary picks
 * the messages, how many bytes every send and every read moves, when wakeups and
 * upcalls happen, and which messages the full queue refuses.
 */
module Fifo {
  import opened Frames
  import Tx = Transmit
  import Rx = Receive

  datatype Link = Link(
    tx: Tx.Tx<byte>,
    rx: Rx.Rx,
    flight: seq<byte>,      // sent and not yet read
    consumed: seq<byte>,    // read
    accepted: seq<Event>,
    delivered: seq<Event>,
    open: bool)

  datatype Action = Put(event: Event, c: Tx.Choice) | Wakeup(c: Tx.Choice) | Read(up: Rx.Upcall)

  const START := Link(Tx.Fresh(), Rx.IDLE, [], [], [], [], true)

  /** The possible steps in which no send fails for good, no moved byte is dropped and no
      header-stage recv would block: a message is refused only while none of its bytes has
      gone out, and a remainder always finds room at the head of the queue. */
  predicate Possible(f: Format, s: Link, a: Action) {
    match a
    case Put(e, c) =>
      && WellFormed(f, e)
      && (s.tx.queue == [] ==>
            && Tx.Possible(c.send, Bytes(e)) && !c.send.Broken?
            && (c.room || Tx.BytesMoved(c.send) == |Bytes(e)| || Tx.BytesMoved(c.send) == 0))
    case Wakeup(c) =>
      && s.tx.wakeup && s.tx.queue != []
      && Tx.Possible(c.send, s.tx.queue[0]) && !c.send.Broken?
      && (c.room || Tx.BytesMoved(c.send) == |s.tx.queue[0]|)
    case Read(up) => s.open && Rx.Consistent(f, s.rx) && s.rx.lost == 0 && !Rx.Miss(f, s.rx, up)
  }

  function Deliver(s: Link, r: Rx.Reply): Link
    requires |r.unread| <= |s.flight|
  {
    s.(rx := r.rx,
       flight := r.unread,
       consumed := s.consumed + s.flight[..|s.flight| - |r.unread|],
       delivered := if r.outcome.Delivered? then s.delivered + [r.outcome.event] else s.delivered,
       open := !r.outcome.Closed?)
  }

  function Advance(s: Link, tx: Tx.Tx<byte>): Link
    requires s.tx.sent <= tx.sent
  {
    s.(tx := tx, flight := s.flight + tx.sent[|s.tx.sent|..])
  }

  function Step(f: Format, s: Link, a: Action): Link
    requires Possible(f, s, a)
  {
    match a
    case Put(e, c) =>
      var r := Tx.Put(s.tx, Bytes(e), c);
      var s' := Advance(s, r.tx);
      if r.value == -1 then s' else s'.(accepted := s.accepted + [e])
    case Wakeup(c) => Advance(s, Tx.HandleOutput(s.tx, c))
    case Read(up) =>
      Rx.RecvCallAgrees(f, s.rx, s.flight, up);
      Deliver(s, Rx.RecvCall(f, s.rx, s.flight, up))
  }

  ghost predicate Inv(f: Format, s: Link) {
    && AllWellFormed(f, s.accepted)
    && Tx.Consistent(s.tx)
    && Tx.Account(s.tx) == Wire(s.accepted)
    && s.tx.sent == s.consumed + s.flight
    && var p := Parse(f, s.consumed);
       && p.events == s.delivered && !p.bad
       && (s.open ==> Rx.Consistent(f, s.rx) && s.rx.lost == 0 && p.rest == Rx.Fragment(s.rx))
  }

  lemma AdvanceKeepsStream(s: Link, tx: Tx.Tx<byte>)
    requires s.tx.sent <= tx.sent && s.tx.sent == s.consumed + s.flight
    ensures Advance(s, tx).tx.sent == Advance(s, tx).consumed + Advance(s, tx).flight
  {
    var more := tx.sent[|s.tx.sent|..];
    Assoc(s.consumed, s.flight, more);
    assert tx.sent == s.tx.sent + more;
  }

  lemma PutKeepsInv(f: Format, s: Link, e: Event, c: Tx.Choice)
    requires Inv(f, s) && Possible(f, s, Put(e, c))
    ensures Inv(f, Step(f, s, Put(e, c)))
  {
    var r := Tx.Put(s.tx, Bytes(e), c);
    Tx.PutKeepsConsistent(s.tx, Bytes(e), c);
    Tx.PutAccount(s.tx, Bytes(e), c);
    AdvanceKeepsStream(s, r.tx);
    if r.value != -1 {
      WireAppend(s.accepted, [e]);
      WireOne(e);
    }
  }

  lemma WakeupKeepsInv(f: Format, s: Link, c: Tx.Choice)
    requires Inv(f, s) && Possible(f, s, Wakeup(c))
    ensures Inv(f, Step(f, s, Wakeup(c)))
  {
    Tx.HandleOutputKeepsConsistent(s.tx, c);
    Tx.HandleOutputAccount(s.tx, c);
    AdvanceKeepsStream(s, Tx.HandleOutput(s.tx, c));
  }

  /** What has been read, with everything still under way, is the accepted stream. */
  lemma ConsumedIsPrefix(f: Format, s: Link)
    requires Inv(f, s)
    ensures s.consumed + (s.flight + Flatten(s.tx.queue)) == Wire(s.accepted)
  {
    Assoc(s.consumed, s.flight, Flatten(s.tx.queue));
  }

  lemma ReadKeepsInv(f: Format, s: Link, up: Rx.Upcall)
    requires Inv(f, s) && Possible(f, s, Read(up))
    ensures Inv(f, Step(f, s, Read(up)))
  {
    var r := Rx.RecvCall(f, s.rx, s.flight, up);
    Rx.RecvCallAgrees(f, s.rx, s.flight, up);
    var t := Rx.Taken(s.flight, r);
    var s' := Step(f, s, Read(up));
    assert s'.consumed == s.consumed + t;
    Assoc(s.consumed, t, r.unread);
    ParseResumes(f, s.consumed, t);
    ConsumedIsPrefix(f, s);
    var later := r.unread + Flatten(s.tx.queue);
    Assoc(t, r.unread, Flatten(s.tx.queue));
    Assoc(s.consumed, t, later);
    ParsePrefixOfWire(f, s'.consumed, later, s.accepted);
  }

  lemma StepKeepsInv(f: Format, s: Link, a: Action)
    requires Inv(f, s) && Possible(f, s, a)
    ensures Inv(f, Step(f, s, a))
  {
    match a
    case Put(e, c) => PutKeepsInv(f, s, e, c);
    case Wakeup(c) => WakeupKeepsInv(f, s, c);
    case Read(up) => ReadKeepsInv(f, s, up);
  }

  // ---------------------------------------------------------------------------
  // Runs

  predicate Runnable(f: Format, s: Link, run: seq<Action>)
    decreases |run|
  {
    run == [] || (Possible(f, s, run[0]) && Runnable(f, Step(f, s, run[0]), run[1..]))
  }

  function Run(f: Format, s: Link, run: seq<Action>): Link
    requires Runnable(f, s, run)
    decreases |run|
  {
    if run == [] then s else Run(f, Step(f, s, run[0]), run[1..])
  }

  lemma {:induction false} RunKeepsInv(f: Format, s: Link, run: seq<Action>)
    requires Inv(f, s) && Runnable(f, s, run)
    ensures Inv(f, Run(f, s, run))
    decreases |run|
  {
    if run != [] {
      StepKeepsInv(f, s, run[0]);
      RunKeepsInv(f, Step(f, s, run[0]), run[1..]);
    }
  }

  /** Sender conservation over every run: wire bytes, then the queue head first, are the
      accepted messages in order, and a wakeup is registered exactly when the queue is
      not empty. */
  lemma Conservation(f: Format, run: seq<Action>)
    requires Runnable(f, START, run)
    ensures var s := Run(f, START, run);
            && s.tx.sent + Flatten(s.tx.queue) == Wire(s.accepted)
            && (s.tx.wakeup <==> s.tx.queue != [])
  {
    StartHasInv(f);
    RunKeepsInv(f, START, run);
  }

  lemma StartHasInv(f: Format)
    ensures Inv(f, START)
  {
    assert START.tx.sent == START.consumed + START.flight;
  }

  /** End-to-end FIFO: in every run the delivered events are a prefix of the accepted
      messages, and all of them once queue and wire are empty. */
  lemma DeliveredIsPrefix(f: Format, run: seq<Action>)
    requires Runnable(f, START, run)
    ensures var s := Run(f, START, run);
            && s.delivered <= s.accepted
            && (s.tx.queue == [] && s.flight == [] ==> s.delivered == s.accepted)
  {
    StartHasInv(f);
    RunKeepsInv(f, START, run);
    var s := Run(f, START, run);
    ConsumedIsPrefix(f, s);
    ParsePrefixOfWire(f, s.consumed, s.flight + Flatten(s.tx.queue), s.accepted);
  }

  // ---------------------------------------------------------------------------
  // Nothing stays under way for ever

  predicate Ready(g: Rx.Grant) {
    g.Move? && g.n > 0
  }

  /** Readable-socket upcalls: both reads are willing to move at least one byte. */
  predicate Willing(ups: seq<Rx.Upcall>) {
    forall i :: 0 <= i < |ups| ==> Ready(ups[i].header) && Ready(ups[i].data)
  }

  function Reads(f: Format, s: Link, ups: seq<Rx.Upcall>): Link
    requires Inv(f, s) && Willing(ups)
    decreases |ups|
  {
    if ups == [] || s.flight == [] || !s.open then s
    else
      StepKeepsInv(f, s, Read(ups[0]));
      Reads(f, Step(f, s, Read(ups[0])), ups[1..])
  }

  lemma ReadMoves(f: Format, s: Link, up: Rx.Upcall)
    requires Inv(f, s) && s.open && s.flight != [] && Ready(up.header) && Ready(up.data)
    ensures var s' := Step(f, s, Read(up));
            s'.open && |s'.flight| < |s.flight| && s'.tx == s.tx && s'.accepted == s.accepted
  {
    var r := Rx.RecvCall(f, s.rx, s.flight, up);
    Rx.RecvCallMoves(f, s.rx, s.flight, up);
    if r.outcome.Closed? {
      ReadIsNeverMalformed(f, s, up);
    }
  }

  /** The receiver never meets a malformed header on a stream of accepted messages. */
  lemma ReadIsNeverMalformed(f: Format, s: Link, up: Rx.Upcall)
    requires Inv(f, s) && Possible(f, s, Read(up))
    ensures Rx.RecvCall(f, s.rx, s.flight, up).outcome != Rx.Closed(Rx.Malformed)
  {
    var r := Rx.RecvCall(f, s.rx, s.flight, up);
    Rx.RecvCallAgrees(f, s.rx, s.flight, up);
    ReadKeepsInv(f, s, up);
    ParseResumes(f, s.consumed, Rx.Taken(s.flight, r));
  }

  lemma {:induction false} ReadsDrain(f: Format, s: Link, ups: seq<Rx.Upcall>)
    requires Inv(f, s) && s.open && Willing(ups) && |ups| >= |s.flight|
    ensures var s' := Reads(f, s, ups);
            Inv(f, s') && s'.flight == [] && s'.tx == s.tx && s'.accepted == s.accepted
    decreases |ups|
  {
    if s.flight != [] {
      StepKeepsInv(f, s, Read(ups[0]));
      ReadMoves(f, s, ups[0]);
      ReadsDrain(f, Step(f, s, Read(ups[0])), ups[1..]);
    }
  }

  /** With the queue empty, as many willing reads as there are bytes in flight deliver
      every accepted message. */
  lemma AllDelivered(f: Format, run: seq<Action>, ups: seq<Rx.Upcall>)
    requires Runnable(f, START, run)
    requires var s := Run(f, START, run);
             s.open && s.tx.queue == [] && Willing(ups) && |ups| >= |s.flight|
    ensures Inv(f, Run(f, START, run))
    ensures Reads(f, Run(f, START, run), ups).delivered == Run(f, START, run).accepted
  {
    StartHasInv(f);
    RunKeepsInv(f, START, run);
    ReadsDeliver(f, Run(f, START, run), ups);
  }

  /** A schedule of write wakeups, run while there is anything queued. */
  function Wakeups(f: Format, s: Link, cs: seq<Tx.Choice>): Link
    requires Inv(f, s) && Tx.Progressing(s.tx, cs)
    decreases |cs|
  {
    if cs == [] || s.tx.queue == [] then s
    else
      StepKeepsInv(f, s, Wakeup(cs[0]));
      Wakeups(f, Step(f, s, Wakeup(cs[0])), cs[1..])
  }

  lemma {:induction false} WakeupsAreOutputs(f: Format, s: Link, cs: seq<Tx.Choice>)
    requires Inv(f, s) && Tx.Progressing(s.tx, cs)
    ensures var t := Wakeups(f, s, cs);
            && Inv(f, t) && t.tx == Tx.Outputs(s.tx, cs)
            && t.open == s.open && t.accepted == s.accepted && t.consumed == s.consumed
    decreases |cs|
  {
    if cs != [] && s.tx.queue != [] {
      StepKeepsInv(f, s, Wakeup(cs[0]));
      WakeupsAreOutputs(f, Step(f, s, Wakeup(cs[0])), cs[1..]);
    }
  }

  /** After enough progressing wakeups everything unread is in flight. */
  lemma WakeupsDrain(f: Format, s: Link, cs: seq<Tx.Choice>)
    requires Inv(f, s) && Tx.Progressing(s.tx, cs) && |cs| >= Tx.Pending(s.tx)
    ensures var t := Wakeups(f, s, cs);
            && Inv(f, t) && t.tx.queue == [] && t.open == s.open && t.accepted == s.accepted
            && |t.flight| == |s.flight| + Tx.Pending(s.tx)
  {
    WakeupsAreOutputs(f, s, cs);
    Tx.OutputsDrain(s.tx, cs);
  }

  lemma ReadsDeliver(f: Format, s: Link, ups: seq<Rx.Upcall>)
    requires Inv(f, s) && s.open && s.tx.queue == [] && Willing(ups) && |ups| >= |s.flight|
    ensures Reads(f, s, ups).delivered == s.accepted
  {
    ReadsDrain(f, s, ups);
    var t := Reads(f, s, ups);
    ConsumedIsPrefix(f, t);
    assert t.flight + Flatten(t.tx.queue) == [];
    ParsePrefixOfWire(f, t.consumed, [], s.accepted);
  }

  /** From any open state of any run: as many progressing wakeups as there are bytes pending,
      then as many willing reads as there are bytes unread, deliver every accepted message. */
  lemma EverythingArrives(f: Format, run: seq<Action>, cs: seq<Tx.Choice>, ups: seq<Rx.Upcall>)
    requires Runnable(f, START, run)
    requires var s := Run(f, START, run);
             && s.open && Tx.Progressing(s.tx, cs) && |cs| >= Tx.Pending(s.tx)
             && Willing(ups) && |ups| >= |s.flight| + Tx.Pending(s.tx)
    ensures var s := Run(f, START, run);
            && Inv(f, s) && Inv(f, Wakeups(f, s, cs))
            && Reads(f, Wakeups(f, s, cs), ups).delivered == s.accepted
  {
    StartHasInv(f);
    RunKeepsInv(f, START, run);
    var s := Run(f, START, run);
    WakeupsDrain(f, s, cs);
    ReadsDeliver(f, Wakeups(f, s, cs), ups);
  }
}
