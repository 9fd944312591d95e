/**
 * The framed-event queue of `SharedAppMgr::handle_event`: data events that arrive before
 * the application is ready wait in a priority queue and are handed over, highest
 * priority first, as soon as it is.
 */
module FrameQueue {

  /** serial distinguishes equal events; data marks SimMsgType::DATA, control the flag. */
  datatype Event = Event(serial: nat, priority: int, data: bool, control: bool)

  /** Why an event was handed over: not subject to the gate, the application was ready on
      arrival, or the application was ready when the queue was drained. */
  datatype Gate = Ungated | ReadyOnArrival | ReadyAtDrain

  datatype Handoff = Handoff(event: Event, gate: Gate)

  /** The application's two answers to data_ready() during one call. */
  datatype Answer = Answer(arrival: bool, drain: bool)

  datatype State = State(queue: seq<Event>, handed: seq<Handoff>)

  predicate Gated(e: Event) {
    e.data && !e.control
  }

  /** top(): a highest-priority element. */
  function Top(q: seq<Event>): (i: nat)
    requires q != []
    ensures i < |q| && forall k :: 0 <= k < |q| ==> q[k].priority <= q[i].priority
  {
    if |q| == 1 then 0
    else
      var i := Top(q[..|q| - 1]);
      assert forall k :: 0 <= k < |q| - 1 ==> q[k] == q[..|q| - 1][k];
      if q[|q| - 1].priority > q[i].priority then |q| - 1 else i
  }

  function Without(q: seq<Event>, i: nat): seq<Event>
    requires i < |q|
  {
    q[..i] + q[i + 1..]
  }

  /** The order in which a drain hands the queue over. */
  function Drained(q: seq<Event>): seq<Event>
    decreases |q|
  {
    if q == [] then [] else [q[Top(q)]] + Drained(Without(q, Top(q)))
  }

  function Marked(es: seq<Event>, g: Gate): seq<Handoff> {
    seq(|es|, i requires 0 <= i < |es| => Handoff(es[i], g))
  }

  function Admit(s: State, e: Event, ready: bool): State {
    if !Gated(e) then s.(handed := s.handed + [Handoff(e, Ungated)])
    else if ready then s.(handed := s.handed + [Handoff(e, ReadyOnArrival)])
    else s.(queue := s.queue + [e])
  }

  function Release(s: State, ready: bool): State {
    if s.queue != [] && ready then State([], s.handed + Marked(Drained(s.queue), ReadyAtDrain)) else s
  }

  /** The event is handed over or queued; then, if the application is (now) ready, the
      whole queue is drained. */
  function Handle(s: State, e: Event, a: Answer): State {
    Release(Admit(s, e, a.arrival), a.drain)
  }

  // ---------------------------------------------------------------------------
  // A drain

  lemma WithoutConserves(q: seq<Event>, i: nat)
    requires i < |q|
    ensures multiset(q) == multiset{q[i]} + multiset(Without(q, i))
  {
    assert q == q[..i] + ([q[i]] + q[i + 1..]);
  }

  /** A drain hands over every queued event exactly once. */
  lemma {:induction false} DrainConserves(q: seq<Event>)
    ensures |Drained(q)| == |q| && multiset(Drained(q)) == multiset(q)
    decreases |q|
  {
    if q != [] {
      WithoutConserves(q, Top(q));
      DrainConserves(Without(q, Top(q)));
    }
  }

  /** In non-increasing priority order. */
  lemma {:induction false} DrainIsOrdered(q: seq<Event>)
    ensures forall i, j :: 0 <= i < j < |Drained(q)| ==> Drained(q)[i].priority >= Drained(q)[j].priority
    decreases |q|
  {
    if q != [] {
      var rest := Without(q, Top(q));
      DrainIsOrdered(rest);
      DrainConserves(rest);
      forall k | 0 <= k < |Drained(rest)|
        ensures Drained(rest)[k].priority <= q[Top(q)].priority
      {
        assert Drained(rest)[k] in multiset(rest);
        assert Drained(rest)[k] in rest;
      }
    }
  }

  // ---------------------------------------------------------------------------
  // Runs

  datatype Input = Input(event: Event, answer: Answer)

  function Run(s: State, ins: seq<Input>): State
    decreases |ins|
  {
    if ins == [] then s else Run(Handle(s, ins[0].event, ins[0].answer), ins[1..])
  }

  function Events(hs: seq<Handoff>): seq<Event> {
    seq(|hs|, i requires 0 <= i < |hs| => hs[i].event)
  }

  function Offered(ins: seq<Input>): multiset<Event> {
    if ins == [] then multiset{} else multiset{ins[0].event} + Offered(ins[1..])
  }

  function Holdings(s: State): multiset<Event> {
    multiset(Events(s.handed)) + multiset(s.queue)
  }

  lemma EventsAppend(a: seq<Handoff>, b: seq<Handoff>)
    ensures Events(a + b) == Events(a) + Events(b)
  {
  }

  lemma AdmitConserves(s: State, e: Event, ready: bool)
    ensures Holdings(Admit(s, e, ready)) == Holdings(s) + multiset{e}
  {
    var h := Handoff(e, if !Gated(e) then Ungated else ReadyOnArrival);
    EventsAppend(s.handed, [h]);
    assert Events([h]) == [e];
  }

  lemma ReleaseConserves(s: State, ready: bool)
    ensures Holdings(Release(s, ready)) == Holdings(s)
  {
    EventsAppend(s.handed, Marked(Drained(s.queue), ReadyAtDrain));
    assert Events(Marked(Drained(s.queue), ReadyAtDrain)) == Drained(s.queue);
    DrainConserves(s.queue);
  }

  /** Conservation: whatever the application answers, the events offered are the events
      handed over plus the events still queued, each counted once. */
  lemma {:induction false} RunConserves(s: State, ins: seq<Input>)
    ensures Holdings(Run(s, ins)) == Holdings(s) + Offered(ins)
    decreases |ins|
  {
    if ins != [] {
      var e, a := ins[0].event, ins[0].answer;
      AdmitConserves(s, e, a.arrival);
      ReleaseConserves(Admit(s, e, a.arrival), a.drain);
      RunConserves(Handle(s, ins[0].event, ins[0].answer), ins[1..]);
    }
  }

  predicate GateInv(s: State) {
    && (forall i :: 0 <= i < |s.queue| ==> Gated(s.queue[i]))
    && (forall i :: 0 <= i < |s.handed| ==> (Gated(s.handed[i].event) <==> s.handed[i].gate != Ungated))
  }

  lemma DrainedAreQueued(q: seq<Event>, e: Event)
    ensures e in Drained(q) <==> e in q
  {
    DrainConserves(q);
    assert e in Drained(q) <==> e in multiset(Drained(q));
    assert e in q <==> e in multiset(q);
  }

  lemma ReleaseKeepsGate(s: State, ready: bool)
    requires GateInv(s)
    ensures GateInv(Release(s, ready))
  {
    forall k | 0 <= k < |Drained(s.queue)|
      ensures Gated(Drained(s.queue)[k])
    {
      DrainedAreQueued(s.queue, Drained(s.queue)[k]);
    }
  }

  /** The gate: a non-control data event is handed over only because the application was
      ready, on arrival or at the start of its drain; nothing else is ever queued. */
  lemma {:induction false} RunKeepsGate(s: State, ins: seq<Input>)
    requires GateInv(s)
    ensures GateInv(Run(s, ins))
    decreases |ins|
  {
    if ins != [] {
      assert GateInv(Admit(s, ins[0].event, ins[0].answer.arrival));
      ReleaseKeepsGate(Admit(s, ins[0].event, ins[0].answer.arrival), ins[0].answer.drain);
      RunKeepsGate(Handle(s, ins[0].event, ins[0].answer), ins[1..]);
    }
  }

  /** The marks mean what they say: a step hands a gated event over only with the matching
      answer of the application. */
  lemma HandoffNeedsReady(s: State, e: Event, a: Answer, i: nat)
    requires |s.handed| <= i < |Handle(s, e, a).handed|
    ensures var h := Handle(s, e, a).handed[i];
            && (h.gate == ReadyOnArrival ==> a.arrival && h.event == e)
            && (h.gate == ReadyAtDrain ==> a.drain && (h.event in s.queue || h.event == e))
            && (h.gate == Ungated ==> h.event == e && !Gated(e))
  {
    var h := Handle(s, e, a).handed[i];
    if h.gate == ReadyAtDrain {
      DrainedAreQueued(Admit(s, e, a.arrival).queue, h.event);
    }
  }

  /** The events that a call, or a run, hands over after those of `before`. */
  function Since(before: State, after: State): seq<Event>
    requires |before.handed| <= |after.handed|
  {
    Events(after.handed[|before.handed|..])
  }

  /** Not data, or marked as control, or met by a ready application: handed over on arrival. */
  predicate AtOnce(e: Event, a: Answer) {
    !e.data || e.control || a.arrival
  }

  predicate ByPriority(es: seq<Event>) {
    forall i, j :: 0 <= i < j < |es| ==> es[i].priority >= es[j].priority
  }

  /** What waits once the event has been handed over or queued. */
  function WaitingAfter(s: State, e: Event, a: Answer): seq<Event> {
    if AtOnce(e, a) then s.queue else s.queue + [e]
  }

  /** What a call hands over from the queue: all of it but an event handed over on arrival. */
  function FromQueue(out: seq<Event>, e: Event, a: Answer): seq<Event> {
    if AtOnce(e, a) && out != [] then out[1..] else out
  }

  /** One call in full. An event handed over on arrival comes first; then, if the application
      is ready, everything queued, highest priority first; otherwise nothing more, and what
      was not handed over stays queued in order of arrival. */
  lemma {:induction false} OneCall(s: State, e: Event, a: Answer)
    ensures s.handed <= Handle(s, e, a).handed
    ensures var out := Since(s, Handle(s, e, a));
            && (AtOnce(e, a) ==> out != [] && out[0] == e)
            && ByPriority(FromQueue(out, e, a))
            && (a.drain ==> multiset(FromQueue(out, e, a)) == multiset(WaitingAfter(s, e, a)))
            && (!a.drain ==> FromQueue(out, e, a) == [])
    ensures Handle(s, e, a).queue == if a.drain then [] else WaitingAfter(s, e, a)
  {
    HandedInCall(s, e, a);
    var drained := if a.drain then Drained(WaitingAfter(s, e, a)) else [];
    DrainConserves(WaitingAfter(s, e, a));
    DrainIsOrdered(WaitingAfter(s, e, a));
    FirstThenRest(e, a, drained);
  }

  lemma FirstThenRest(e: Event, a: Answer, drained: seq<Event>)
    ensures var out := (if AtOnce(e, a) then [e] else []) + drained;
            FromQueue(out, e, a) == drained && (AtOnce(e, a) ==> out != [] && out[0] == e)
  {
  }

  lemma {:induction false} HandedInCall(s: State, e: Event, a: Answer)
    ensures var t := Handle(s, e, a);
            && s.handed <= t.handed
            && t.queue == (if a.drain then [] else WaitingAfter(s, e, a))
            && Since(s, t) == (if AtOnce(e, a) then [e] else []) + (if a.drain then Drained(WaitingAfter(s, e, a)) else [])
  {
    var m := Admit(s, e, a.arrival);
    var first := AdmittedInCall(s, e, a);
    var rest := if a.drain then Marked(Drained(m.queue), ReadyAtDrain) else [];
    ReleasedInCall(m, a.drain);
    SinceParts(s.handed, first, rest);
    EventsAppend(first, rest);
    EventsOfMarked(Drained(m.queue));
  }

  lemma EventsOfMarked(es: seq<Event>)
    ensures Events(Marked(es, ReadyAtDrain)) == es
  {
  }

  lemma AdmittedInCall(s: State, e: Event, a: Answer) returns (first: seq<Handoff>)
    ensures var m := Admit(s, e, a.arrival);
            m.handed == s.handed + first && m.queue == WaitingAfter(s, e, a)
    ensures Events(first) == if AtOnce(e, a) then [e] else []
  {
    first := if AtOnce(e, a) then [Handoff(e, if !Gated(e) then Ungated else ReadyOnArrival)] else [];
  }

  lemma {:induction false} ReleasedInCall(m: State, ready: bool)
    ensures var rest := if ready then Marked(Drained(m.queue), ReadyAtDrain) else [];
            Release(m, ready) == State(if ready then [] else m.queue, m.handed + rest)
  {
    if m.queue == [] {
      assert Marked(Drained(m.queue), ReadyAtDrain) == [];
    }
    assert m.handed + [] == m.handed;
  }

  lemma SinceParts(before: seq<Handoff>, first: seq<Handoff>, rest: seq<Handoff>)
    ensures (before + first + rest)[|before|..] == first + rest && before <= before + first + rest
  {
  }

  /** In every run: what any call of it hands over from the queue comes by priority, after the
      event it hands over on arrival. */
  lemma EveryCallByPriority(ins: seq<Input>, k: nat)
    requires k < |ins|
    ensures var before, after := Run(FRESH, ins[..k]), Run(FRESH, ins[..k + 1]);
            && before.handed <= after.handed
            && var out := Since(before, after);
               if AtOnce(ins[k].event, ins[k].answer) then out != [] && out[0] == ins[k].event && ByPriority(out[1..])
               else ByPriority(out)
  {
    RunSnoc(FRESH, ins[..k + 1]);
    assert ins[..k + 1][..k] == ins[..k];
    OneCall(Run(FRESH, ins[..k]), ins[k].event, ins[k].answer);
  }

  /** The application answered ready for an event offered at k: on its arrival, or at the
      end of a call not before it. */
  predicate ReadyFor(ins: seq<Input>, k: nat) {
    k < |ins| && (ins[k].answer.arrival || exists j :: k <= j < |ins| && ins[j].answer.drain)
  }

  ghost predicate Permitted(s: State, ins: seq<Input>, e: Event) {
    || !Gated(e)
    || (e in s.queue && exists j :: 0 <= j < |ins| && ins[j].answer.drain)
    || (exists k: nat :: ReadyFor(ins, k) && ins[k].event == e)
  }

  lemma PermittedFirst(s: State, ins: seq<Input>, i: nat)
    requires ins != [] && |s.handed| <= i < |Handle(s, ins[0].event, ins[0].answer).handed|
    requires GateInv(s)
    ensures Permitted(s, ins, Handle(s, ins[0].event, ins[0].answer).handed[i].event)
  {
    var e, a := ins[0].event, ins[0].answer;
    var h := Handle(s, e, a).handed[i];
    HandoffNeedsReady(s, e, a, i);
    if h.event == e {
      assert h.gate != Ungated ==> ReadyFor(ins, 0);
    }
  }

  lemma PermittedLater(s: State, ins: seq<Input>, e: Event)
    requires ins != [] && Permitted(Handle(s, ins[0].event, ins[0].answer), ins[1..], e)
    ensures Permitted(s, ins, e)
  {
    var rest, s' := ins[1..], Handle(s, ins[0].event, ins[0].answer);
    assert forall j :: 0 <= j < |rest| ==> rest[j] == ins[j + 1];
    if e in s'.queue && exists j :: 0 <= j < |rest| && rest[j].answer.drain {
      var j :| 0 <= j < |rest| && rest[j].answer.drain;
      assert ins[j + 1].answer.drain;
      assert e in s.queue || e == ins[0].event;
      assert e == ins[0].event ==> ReadyFor(ins, 0);
    } else if k: nat :| ReadyFor(rest, k) && rest[k].event == e {
      if !rest[k].answer.arrival {
        var j :| k <= j < |rest| && rest[j].answer.drain;
        assert ins[j + 1].answer.drain;
      }
      assert ReadyFor(ins, k + 1);
    }
  }

  lemma {:induction false} HandedArePermitted(s: State, ins: seq<Input>, i: nat)
    requires GateInv(s) && |s.handed| <= i < |Run(s, ins).handed|
    ensures Permitted(s, ins, Run(s, ins).handed[i].event)
    decreases |ins|
  {
    var s' := Handle(s, ins[0].event, ins[0].answer);
    RunExtends(s', ins[1..]);
    RunKeepsGate(s, [ins[0]]);
    assert Run(s, [ins[0]]) == s';
    if i < |s'.handed| {
      PermittedFirst(s, ins, i);
    } else {
      HandedArePermitted(s', ins[1..], i);
      PermittedLater(s, ins, Run(s, ins).handed[i].event);
    }
  }

  lemma {:induction false} RunExtends(s: State, ins: seq<Input>)
    ensures s.handed <= Run(s, ins).handed
    decreases |ins|
  {
    if ins != [] {
      RunExtends(Handle(s, ins[0].event, ins[0].answer), ins[1..]);
    }
  }

  const FRESH := State([], [])

  /** In every run, a non-control data event is handed over only if the application
      answered ready on its arrival or at the end of that or a later call. */
  lemma HandedOnlyWhenReady(ins: seq<Input>, i: nat)
    requires i < |Run(FRESH, ins).handed| && Gated(Run(FRESH, ins).handed[i].event)
    ensures exists k: nat :: ReadyFor(ins, k) && ins[k].event == Run(FRESH, ins).handed[i].event
  {
    HandedArePermitted(FRESH, ins, i);
  }

  /** The gated events that met an answer of not ready since the last answer of ready at the
      end of a call, in order of arrival. */
  function Unready(ins: seq<Input>): seq<Event> {
    if ins == [] then []
    else
      var last := ins[|ins| - 1];
      if last.answer.drain then []
      else Unready(ins[..|ins| - 1]) + if Gated(last.event) && !last.answer.arrival then [last.event] else []
  }

  lemma {:induction false} RunSnoc(s: State, ins: seq<Input>)
    requires ins != []
    ensures var n := |ins| - 1;
            Run(s, ins) == Handle(Run(s, ins[..n]), ins[n].event, ins[n].answer)
    decreases |ins|
  {
    var n := |ins| - 1;
    if n > 0 {
      RunSnoc(Handle(s, ins[0].event, ins[0].answer), ins[1..]);
      assert ins[1..][..n - 1] == ins[..n][1..];
    } else {
      assert ins[1..] == [];
    }
  }

  /** What waits in the queue after any run is exactly that. */
  lemma {:induction false} QueueIsUnready(ins: seq<Input>)
    ensures Run(FRESH, ins).queue == Unready(ins)
    decreases |ins|
  {
    if ins != [] {
      RunSnoc(FRESH, ins);
      QueueIsUnready(ins[..|ins| - 1]);
    }
  }

  // ---------------------------------------------------------------------------
  // The manager object

  lemma MarkedSnoc(es: seq<Event>, e: Event)
    ensures Marked(es + [e], ReadyAtDrain) == Marked(es, ReadyAtDrain) + [Handoff(e, ReadyAtDrain)]
  {
  }

  lemma DrainedFirst(out: seq<Event>, q: seq<Event>)
    requires q != []
    ensures out + Drained(q) == (out + [q[Top(q)]]) + Drained(Without(q, Top(q)))
  {
  }

  class SharedAppMgr {
    var queue: seq<Event>
    var handed: seq<Handoff>

    ghost function Now(): State
      reads this
    {
      State(queue, handed)
    }

    constructor ()
      ensures Now() == FRESH
    {
      queue, handed := [], [];
    }

    method HandleEvent(e: Event, a: Answer)
      modifies this
      ensures Now() == Handle(old(Now()), e, a)
    {
      if !e.data || (e.data && e.control) {
        handed := handed + [Handoff(e, Ungated)];
      } else if a.arrival {
        handed := handed + [Handoff(e, ReadyOnArrival)];
      } else {
        queue := queue + [e];
      }
      if queue != [] && a.drain {
        Drain();
      }
    }

    /** Hand over the top and pop it until the queue is empty. */
    method Drain()
      modifies this
      ensures queue == [] && handed == old(handed) + Marked(Drained(old(queue)), ReadyAtDrain)
    {
      ghost var out: seq<Event> := [];
      while queue != []
        invariant handed == old(handed) + Marked(out, ReadyAtDrain)
        invariant out + Drained(queue) == Drained(old(queue))
        decreases |queue|
      {
        var i := FindTop();
        var e := queue[i];
        DrainedFirst(out, queue);
        handed := handed + [Handoff(e, ReadyAtDrain)];
        queue := Without(queue, i);
        MarkedSnoc(out, e);
        out := out + [e];
      }
      assert out + [] == out;
    }

    method FindTop() returns (i: nat)
      requires queue != []
      ensures i == Top(queue)
    {
      i := 0;
      var k := 1;
      assert queue[..1] == [queue[0]];
      while k < |queue|
        invariant 1 <= k <= |queue| && i < k
        invariant i == Top(queue[..k])
      {
        assert queue[..k + 1][..k] == queue[..k];
        if queue[k].priority > queue[i].priority {
          i := k;
        }
        k := k + 1;
      }
      assert queue[..k] == queue;
    }
  }
}
