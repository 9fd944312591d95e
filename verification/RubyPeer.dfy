/**
 * The Ruby peer's receiver: `IseProtocol#receive_data` puts the left-over bytes of the
 * previous call in front of the new ones, cuts complete messages off the front into a
 * queue, keeps the remainder as left-overs, and then works off what it queued.
 */
module RubyPeer {
  import opened Frames
  import Receive

  /** A header must start with the letters S and N. */
  predicate HasMagic(s: seq<byte>) {
    |s| >= 2 && s[0] == 83 && s[1] == 78
  }

  /** The two letters, as the header class writes them. */
  lemma MagicIsSN(s: seq<byte>)
    ensures HasMagic(s) <==> |s| >= 2 && [s[0] as char, s[1] as char] == "SN"
  {
  }

  /** The Ruby header decodes its length field as an unsigned integer. */
  ghost predicate Unsigned(f: Format) {
    f.headerLength >= 2 && forall h: seq<byte> :: f.dataLength(h) >= 0
  }

  /** Messages cut off, left-overs, and whether the process exited on a bad magic. */
  datatype Split = Split(messages: seq<seq<byte>>, leftOvers: seq<byte>, exited: bool)

  /** Reference splitter. */
  function SplitAll(f: Format, s: seq<byte>): Split
    decreases |s|
  {
    var H := f.headerLength;
    if |s| < H then Split([], s, false)
    else if !HasMagic(s) then Split([], s, true)
    else
      var total := H + f.dataLength(s[..H]);
      if total < H || total > |s| then Split([], s, false)
      else
        var r := SplitAll(f, s[total..]);
        Split([s[..total]] + r.messages, r.leftOvers, r.exited)
  }

  function Raw(es: seq<Event>): seq<seq<byte>> {
    if es == [] then [] else [Bytes(es[0])] + Raw(es[1..])
  }

  /** Unless it exits, the splitter cuts exactly the frames the parser finds. */
  lemma {:induction false} SplitIsParse(f: Format, s: seq<byte>)
    requires Unsigned(f)
    ensures var r, p := SplitAll(f, s), Parse(f, s);
            && !p.bad
            && (!r.exited ==> r.messages == Raw(p.events) && r.leftOvers == p.rest)
            && (r.exited ==> r.messages <= Raw(p.events))
    decreases |s|
  {
    var H := f.headerLength;
    if |s| >= H && H + f.dataLength(s[..H]) <= |s| {
      var total := H + f.dataLength(s[..H]);
      var e, u := Event(s[..H], s[H..total]), s[total..];
      SplitIsParse(f, u);
      var q := Parse(f, u);
      assert Parse(f, s) == Parsed([e] + q.events, q.rest, q.bad);
      RawFirst(e, q.events);
      assert Bytes(e) == s[..total];
      if HasMagic(s) {
        SplitCut(f, s, total);
      }
    }
  }

  lemma RawFirst(e: Event, es: seq<Event>)
    ensures Raw([e] + es) == [Bytes(e)] + Raw(es)
  {
    assert ([e] + es)[1..] == es;
  }

  /** The splitter exits exactly when some frame of the stream lacks the magic. */
  lemma {:induction false} ExitsOnForeignFrame(f: Format, es: seq<Event>)
    requires Unsigned(f) && AllWellFormed(f, es)
    ensures SplitAll(f, Wire(es)).exited <==> exists i :: 0 <= i < |es| && !HasMagic(es[i].header)
    decreases |es|
  {
    if es != [] {
      var s, e := Wire(es), es[0];
      var H, n := f.headerLength, |e.data|;
      assert WellFormed(f, e);
      ExitsOnForeignFrame(f, es[1..]);
      assert s[..H] == e.header;
      assert s[0] == e.header[0] && s[1] == e.header[1];
      assert s[H + n..] == Wire(es[1..]);
      assert forall i :: 0 < i < |es| ==> es[i] == es[1..][i - 1];
    }
  }

  // ---------------------------------------------------------------------------
  // Runs over arbitrary chunks

  /** A run of receive_data calls: (messages in order, left-overs, exited). */
  function Feed(f: Format, leftOvers: seq<byte>, chunks: seq<seq<byte>>): Split
    decreases |chunks|
  {
    if chunks == [] then Split([], leftOvers, false)
    else
      var r := SplitAll(f, leftOvers + chunks[0]);
      if r.exited then r
      else
        var t := Feed(f, r.leftOvers, chunks[1..]);
        Split(r.messages + t.messages, t.leftOvers, t.exited)
  }

  lemma {:induction false} RawAppend(a: seq<Event>, b: seq<Event>)
    ensures Raw(a + b) == Raw(a) + Raw(b)
  {
    if a == [] {
      assert a + b == b;
    } else {
      RawAppend(a[1..], b);
      assert (a + b)[0] == a[0] && (a + b)[1..] == a[1..] + b;
      var head := [Bytes(a[0])];
      assert head + (Raw(a[1..]) + Raw(b)) == (head + Raw(a[1..])) + Raw(b);
    }
  }

  /** Left-overs of a call that did not exit are always an incomplete frame. */
  lemma LeftOversIncomplete(f: Format, s: seq<byte>)
    requires Unsigned(f) && !SplitAll(f, s).exited
    ensures var left := SplitAll(f, s).leftOvers;
            Parse(f, left) == Parsed([], left, false)
            && (|left| < f.headerLength || |left| < f.headerLength + f.dataLength(left[..f.headerLength]))
  {
    SplitIsParse(f, s);
    ParseReassembles(f, s);
  }

  /** Chunk independence of the Ruby receiver. */
  lemma {:induction false} FeedRefinesParse(f: Format, leftOvers: seq<byte>, chunks: seq<seq<byte>>)
    requires Unsigned(f) && !Feed(f, leftOvers, chunks).exited
    requires Parse(f, leftOvers) == Parsed([], leftOvers, false)
    ensures var r, p := Feed(f, leftOvers, chunks), Parse(f, leftOvers + Flatten(chunks));
            r.messages == Raw(p.events) && r.leftOvers == p.rest
    decreases |chunks|
  {
    if chunks == [] {
      assert leftOvers + [] == leftOvers;
    } else {
      var s := leftOvers + chunks[0];
      var r, rest := SplitAll(f, s), Flatten(chunks[1..]);
      SplitIsParse(f, s);
      LeftOversIncomplete(f, s);
      FeedRefinesParse(f, r.leftOvers, chunks[1..]);
      ParseResumes(f, s, rest);
      Assoc(leftOvers, chunks[0], rest);
      RawAppend(Parse(f, s).events, Parse(f, r.leftOvers + rest).events);
    }
  }

  predicate AllMagic(es: seq<Event>) {
    forall i :: 0 <= i < |es| ==> HasMagic(es[i].header)
  }

  lemma FirstOf(header: seq<byte>, data: seq<byte>, rest: seq<byte>, s: seq<byte>, unseen: seq<byte>)
    requires s + unseen == (header + data) + rest
    ensures |s| >= |header| ==> s[..|header|] == header
    ensures |s| >= |header| + |data| ==> s[|header| + |data|..] + unseen == rest
  {
    var w, H, n := s + unseen, |header|, |data|;
    assert w[..H] == header && w[H + n..] == rest;
    if |s| >= H {
      assert s[..H] == w[..H];
    }
    if |s| >= H + n {
      assert s[H + n..] + unseen == w[H + n..];
    }
  }

  lemma FirstFrame(f: Format, s: seq<byte>, unseen: seq<byte>, es: seq<Event>)
    requires AllWellFormed(f, es) && es != [] && s + unseen == Wire(es)
    ensures var H, n := f.headerLength, |es[0].data|;
            && (|s| >= H ==> s[..H] == es[0].header)
            && (|s| >= H + n ==> s[H + n..] + unseen == Wire(es[1..]))
  {
    assert WellFormed(f, es[0]);
    FirstOf(es[0].header, es[0].data, Wire(es[1..]), s, unseen);
  }

  /** Cut anywhere, a stream of frames with the magic never makes the splitter exit, and
      the left-overs line up with the frames still to come. */
  lemma {:induction false} SplitOfFrames(f: Format, s: seq<byte>, unseen: seq<byte>, es: seq<Event>)
    requires Unsigned(f) && AllWellFormed(f, es) && AllMagic(es) && s + unseen == Wire(es)
    ensures var r := SplitAll(f, s);
            !r.exited && |r.messages| <= |es| && r.leftOvers + unseen == Wire(es[|r.messages|..])
    decreases |es|
  {
    var H := f.headerLength;
    assert es[0..] == es;
    if |s| >= H {
      FirstFrame(f, s, unseen, es);
      var total := H + |es[0].data|;
      assert WellFormed(f, es[0]) && HasMagic(es[0].header);
      assert s[0] == s[..H][0] && s[1] == s[..H][1];
      if total <= |s| {
        SplitCut(f, s, total);
        SplitOfFrames(f, s[total..], unseen, es[1..]);
        var k := |SplitAll(f, s[total..]).messages|;
        assert es[1..][k..] == es[k + 1..];
      }
    }
  }

  lemma SplitCut(f: Format, s: seq<byte>, total: nat)
    requires f.headerLength <= |s| && HasMagic(s)
    requires f.headerLength <= total == f.headerLength + f.dataLength(s[..f.headerLength]) <= |s|
    ensures var t := SplitAll(f, s[total..]);
            SplitAll(f, s) == Split([s[..total]] + t.messages, t.leftOvers, t.exited)
  {
  }

  lemma {:induction false} FeedOfFrames(f: Format, leftOvers: seq<byte>, chunks: seq<seq<byte>>, unseen: seq<byte>, es: seq<Event>)
    requires Unsigned(f) && AllWellFormed(f, es) && AllMagic(es)
    requires leftOvers + (Flatten(chunks) + unseen) == Wire(es)
    ensures !Feed(f, leftOvers, chunks).exited
    decreases |chunks|
  {
    if chunks != [] {
      var s, u := leftOvers + chunks[0], Flatten(chunks[1..]) + unseen;
      Assoc(chunks[0], Flatten(chunks[1..]), unseen);
      Assoc(leftOvers, chunks[0], u);
      SplitOfFrames(f, s, u, es);
      var r := SplitAll(f, s);
      FeedOfFrames(f, r.leftOvers, chunks[1..], unseen, es[|r.messages|..]);
    }
  }

  /** Both receivers are at the same point of the stream. */
  predicate InStep(r: Split, s: Receive.Session) {
    && r.messages == Raw(s.events)
    && (!s.closed ==> s.rx.lost == 0 && r.leftOvers == Receive.Fragment(s.rx))
  }

  /** Two receivers agree: once both have seen the same bytes, the Ruby peer under any
      chunking and the dispatcher under any schedule of reads have produced the same
      messages and hold the same incomplete frame, provided no header-stage recv of the
      dispatcher would have blocked. */
  lemma ReceiversAgree(f: Format, chunks: seq<seq<byte>>, unseen: seq<byte>, ups: seq<Receive.Upcall>)
    requires Unsigned(f) && !Feed(f, [], chunks).exited
    requires var s := Receive.Upcalls(f, Receive.IDLE, Flatten(chunks) + unseen, ups);
             s.unread == unseen && s.misses == 0
    ensures InStep(Feed(f, [], chunks), Receive.Upcalls(f, Receive.IDLE, Flatten(chunks) + unseen, ups))
  {
    var stream := Flatten(chunks) + unseen;
    Receive.UpcallsRefineParse(f, Receive.IDLE, stream, ups);
    var s := Receive.Upcalls(f, Receive.IDLE, stream, ups);
    assert stream[..|stream| - |s.unread|] == Flatten(chunks);
    assert Receive.Fragment(Receive.IDLE) + Flatten(chunks) == Flatten(chunks);
    FeedRefinesParse(f, [], chunks);
    assert [] + Flatten(chunks) == Flatten(chunks);
  }

  lemma {:induction false} RawLength(es: seq<Event>)
    ensures |Flatten(Raw(es))| == |Wire(es)|
  {
    if es != [] {
      RawLength(es[1..]);
      assert Raw(es)[1..] == Raw(es[1..]);
    }
  }

  /** And only then: an open dispatcher is in step with the Ruby peer if and only if none
      of its header-stage recvs would have blocked. */
  lemma ReceiversAgreeIff(f: Format, chunks: seq<seq<byte>>, unseen: seq<byte>, ups: seq<Receive.Upcall>)
    requires Unsigned(f) && !Feed(f, [], chunks).exited
    requires var s := Receive.Upcalls(f, Receive.IDLE, Flatten(chunks) + unseen, ups);
             s.unread == unseen && !s.closed
    ensures var s := Receive.Upcalls(f, Receive.IDLE, Flatten(chunks) + unseen, ups);
            InStep(Feed(f, [], chunks), s) <==> s.misses == 0
  {
    var r, stream := Feed(f, [], chunks), Flatten(chunks) + unseen;
    var s := Receive.Upcalls(f, Receive.IDLE, stream, ups);
    assert [] + Flatten(chunks) == Flatten(chunks);
    if s.misses == 0 {
      ReceiversAgree(f, chunks, unseen, ups);
    } else if InStep(r, s) {
      Receive.HeaderCountDrift(f, Receive.IDLE, stream, ups);
      FeedRefinesParse(f, [], chunks);
      ParseReassembles(f, Flatten(chunks));
      RawLength(s.events);
      RawLength(Parse(f, Flatten(chunks)).events);
    }
  }

  /** In particular the Ruby peer never exits on a stream of frames, whatever the chunks
      and the schedule of reads, and the two agree at every common position. */
  lemma ReceiversAgreeOnFrames(f: Format, es: seq<Event>, chunks: seq<seq<byte>>, unseen: seq<byte>, ups: seq<Receive.Upcall>)
    requires Unsigned(f) && AllWellFormed(f, es) && AllMagic(es)
    requires Flatten(chunks) + unseen == Wire(es)
    requires var s := Receive.Upcalls(f, Receive.IDLE, Wire(es), ups); s.unread == unseen && s.misses == 0
    ensures var s := Receive.Upcalls(f, Receive.IDLE, Wire(es), ups);
            && !Feed(f, [], chunks).exited && !s.malformed
            && InStep(Feed(f, [], chunks), s)
            && s.events <= es
            && (unseen == [] ==> s.events == es)
  {
    assert [] + (Flatten(chunks) + unseen) == Wire(es);
    FeedOfFrames(f, [], chunks, unseen, es);
    ReceiversAgree(f, chunks, unseen, ups);
    var w := Wire(es);
    Receive.UpcallsRefineParse(f, Receive.IDLE, w, ups);
    var consumed := w[..|w| - |unseen|];
    assert Receive.Fragment(Receive.IDLE) + consumed == consumed;
    ParsePrefixOfWire(f, consumed, unseen, es);
  }

  // ---------------------------------------------------------------------------
  // The protocol object

  datatype Slot = Empty | Full(message: seq<byte>)

  function Slots(ms: seq<seq<byte>>): (r: seq<Slot>)
    ensures |r| == |ms|
  {
    seq(|ms|, i requires 0 <= i < |ms| => Full(ms[i]))
  }

  /** Array#compact: the occupied slots in order. */
  function Compact(q: seq<Slot>): seq<Slot> {
    if q == [] then [] else (if q[0].Full? then [q[0]] else []) + Compact(q[1..])
  }

  lemma {:induction false} CompactAppend(a: seq<Slot>, b: seq<Slot>)
    ensures Compact(a + b) == Compact(a) + Compact(b)
  {
    if a == [] {
      assert a + b == b;
    } else {
      CompactAppend(a[1..], b);
      assert (a + b)[0] == a[0] && (a + b)[1..] == a[1..] + b;
      var head := if a[0].Full? then [a[0]] else [];
      assert head + (Compact(a[1..]) + Compact(b)) == (head + Compact(a[1..])) + Compact(b);
    }
  }

  lemma {:induction false} CompactUniform(q: seq<Slot>)
    ensures (forall i :: 0 <= i < |q| ==> q[i].Full?) ==> Compact(q) == q
    ensures (forall i :: 0 <= i < |q| ==> q[i].Empty?) ==> Compact(q) == []
  {
    if q != [] {
      CompactUniform(q[1..]);
    }
  }

  /** The queue after k of the newly queued messages have been taken out of their slots. */
  function Worked(kept: seq<Slot>, queued: seq<seq<byte>>, k: nat): (r: seq<Slot>)
    requires k <= |queued|
    ensures |r| == |kept| + |queued|
  {
    kept + seq(k, i => Empty) + Slots(queued[k..])
  }

  lemma WorkedStart(q: seq<Slot>, first: nat, queued: seq<seq<byte>>)
    requires first <= |q| && q[first..] == Slots(queued)
    ensures q == Worked(q[..first], queued, 0)
  {
    assert queued[0..] == queued;
    assert q == q[..first] + q[first..];
  }

  lemma WorkedStep(kept: seq<Slot>, queued: seq<seq<byte>>, k: nat)
    requires k < |queued|
    ensures var q := Worked(kept, queued, k);
            q[|kept| + k] == Full(queued[k]) && q[|kept| + k := Empty] == Worked(kept, queued, k + 1)
  {
  }

  lemma WorkedEnds(kept: seq<Slot>, queued: seq<seq<byte>>)
    requires forall i :: 0 <= i < |kept| ==> kept[i].Full?
    ensures Compact(Worked(kept, queued, |queued|)) == kept
  {
    var blanks := seq(|queued|, i => Empty);
    assert Worked(kept, queued, |queued|) == kept + blanks;
    CompactAppend(kept, blanks);
    CompactUniform(kept);
    CompactUniform(blanks);
  }

  function Continue(cut: seq<seq<byte>>, t: Split): Split {
    Split(cut + t.messages, t.leftOvers, t.exited)
  }

  lemma SlotsAppend(a: seq<seq<byte>>, m: seq<byte>)
    ensures Slots(a + [m]) == Slots(a) + [Full(m)]
  {
  }

  /** The framing loop ends with an incomplete frame, or on a bad magic. */
  lemma CutStops(f: Format, cut: seq<seq<byte>>, data: seq<byte>)
    requires |data| < f.headerLength || (HasMagic(data) && f.headerLength + f.dataLength(data[..f.headerLength]) > |data|)
    ensures Continue(cut, SplitAll(f, data)) == Split(cut, data, false)
  {
    assert cut + [] == cut;
  }

  lemma CutExits(f: Format, cut: seq<seq<byte>>, data: seq<byte>)
    requires |data| >= f.headerLength && !HasMagic(data)
    ensures Continue(cut, SplitAll(f, data)).exited
  {
  }

  /** One turn of the framing loop. */
  lemma CutOne(f: Format, cut: seq<seq<byte>>, data: seq<byte>, total: nat)
    requires f.headerLength <= |data| && HasMagic(data)
    requires f.headerLength <= total == f.headerLength + f.dataLength(data[..f.headerLength]) <= |data|
    ensures var t, t' := SplitAll(f, data), SplitAll(f, data[total..]);
            Continue(cut, t) == Continue(cut + [data[..total]], t')
  {
    var t' := SplitAll(f, data[total..]);
    assert cut + ([data[..total]] + t'.messages) == (cut + [data[..total]]) + t'.messages;
  }

  class IseProtocol {
    const fmt: Format
    var leftOvers: seq<byte>
    var msgQueue: seq<Slot>
    var handled: seq<seq<byte>>  // messages dispatched to callbacks, in order
    var exited: bool

    /** Every slot left in the queue is occupied; freshly constructed, it is empty. */
    ghost predicate Valid()
      reads this
    {
      Unsigned(fmt) && forall i :: 0 <= i < |msgQueue| ==> msgQueue[i].Full?
    }

    constructor (f: Format)
      requires Unsigned(f)
      ensures fmt == f && Valid() && leftOvers == [] && msgQueue == [] && handled == [] && !exited
    {
      fmt, leftOvers, msgQueue, handled, exited := f, [], [], [], false;
    }

    /** Cut, queue, work off: the messages of this call are handled in stream order, the
        queue is left as it was found, and the remainder is kept. */
    method ReceiveData(chunk: seq<byte>)
      requires Valid() && !exited
      modifies this
      ensures var r := SplitAll(fmt, old(leftOvers) + chunk);
              && exited == r.exited
              && (!exited ==> Valid() && handled == old(handled) + r.messages
                              && leftOvers == r.leftOvers && msgQueue == old(msgQueue))
    {
      var data := chunk;
      if |leftOvers| > 0 {
        data := leftOvers + data;
        leftOvers := [];
      }
      assert data == old(leftOvers) + chunk;
      var first := |msgQueue|;
      Cut(data);
      if exited { return; }
      if |msgQueue| == first {
        assert msgQueue == old(msgQueue);
        return;
      }
      WorkOff(first, SplitAll(fmt, data).messages);
    }

    /** The framing loop. */
    method Cut(whole: seq<byte>)
      requires Valid() && leftOvers == []
      modifies this
      ensures var r := SplitAll(fmt, whole);
              && exited == (old(exited) || r.exited)
              && handled == old(handled)
              && (!r.exited ==> leftOvers == r.leftOvers && msgQueue == old(msgQueue) + Slots(r.messages))
    {
      var data := whole;
      ghost var cut: seq<seq<byte>> := [];
      ghost var result := SplitAll(fmt, whole);
      while |data| > 0
        invariant leftOvers == [] && exited == old(exited) && handled == old(handled)
        invariant msgQueue == old(msgQueue) + Slots(cut)
        invariant result == Continue(cut, SplitAll(fmt, data))
        decreases |data|
      {
        var length := FrameLength(data);
        if length < 0 {
          CutExits(fmt, cut, data);
          exited := true;
          return;
        }
        if length == 0 {
          CutStops(fmt, cut, data);
          leftOvers := data;
          return;
        }
        CutOne(fmt, cut, data, length);
        SlotsAppend(cut, data[..length]);
        msgQueue := msgQueue + [Full(data[..length])];
        cut := cut + [data[..length]];
        data := data[length..];
      }
      CutStops(fmt, cut, data);
    }

    /** The length of the frame at the front; 0 if it is not complete, -1 on a bad magic. */
    method FrameLength(data: seq<byte>) returns (length: int)
      requires Unsigned(fmt)
      ensures length < 0 <==> |data| >= fmt.headerLength && !HasMagic(data)
      ensures length == 0 <==> (
        || |data| < fmt.headerLength
        || (HasMagic(data) && fmt.headerLength + fmt.dataLength(data[..fmt.headerLength]) > |data|))
      ensures length > 0 ==>
        && fmt.headerLength <= |data| && HasMagic(data)
        && length == fmt.headerLength + fmt.dataLength(data[..fmt.headerLength]) <= |data|
    {
      var H := fmt.headerLength;
      if |data| < H { return 0; }
      if !HasMagic(data) { return -1; }
      var total := H + fmt.dataLength(data[..H]);
      length := if total > |data| then 0 else total;
    }

    /** The dispatch loop over the messages queued by this call. */
    method WorkOff(first: nat, ghost queued: seq<seq<byte>>)
      requires Valid() && first < |msgQueue|
      requires msgQueue[first..] == Slots(queued)
      modifies this`msgQueue, this`handled
      ensures Valid() && msgQueue == old(msgQueue)[..first] && handled == old(handled) + queued
    {
      var last := |msgQueue|;
      ghost var kept := msgQueue[..first];
      WorkedStart(msgQueue, first, queued);
      var i := first;
      while i < last
        invariant first <= i <= last == first + |queued|
        invariant msgQueue == Worked(kept, queued, i - first)
        invariant handled == old(handled) + queued[..i - first]
      {
        WorkedStep(kept, queued, i - first);
        handled := handled + [msgQueue[i].message];
        msgQueue := msgQueue[i := Empty];
        i := i + 1;
      }
      assert queued[..last - first] == queued;
      WorkedEnds(kept, queued);
      msgQueue := Compact(msgQueue);
    }
  }
}
