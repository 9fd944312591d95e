/**
 * The dispatcher's staged receiver: `ReceiveHandler::recv_header` rebuilds frames from
 * short reads of a non-blocking socket, keeping a header fragment, a byte count and a
 * data fragment between reactor upcalls.
 */
module Receive {
  import opened Frames

  /** What one recv call is allowed to do: move some bytes, report that nothing is
      ready, or fail. */
  datatype Grant = Move(n: nat) | WouldBlock | Fault

  /** The grants of the header-stage and the data-stage recv of one upcall. */
  datatype Upcall = Upcall(header: Grant, data: Grant)

  /** The partial frame held between upcalls. The header count of the source is
      |header| - lost: a header-stage recv that would block returns -1, which is added to
      the count unchecked. From a positive count this gives the last byte held up; from
      zero it makes the count negative, and that many of the next bytes are stored in
      front of the header and lost. */
  datatype Rx = Rx(header: seq<byte>, data: seq<byte>, lost: nat)

  datatype Reason = Disconnected | Malformed | Broken

  datatype Outcome = Delivered(event: Event) | ShortRead | Closed(reason: Reason)

  datatype Reply = Reply(rx: Rx, outcome: Outcome, unread: seq<byte>)

  const IDLE := Rx([], [], 0)

  function Fragment(rx: Rx): seq<byte> {
    rx.header + rx.data
  }

  /** header_recvd_ <= H, and the data held is strictly less than announced. */
  predicate Consistent(f: Format, rx: Rx) {
    && (rx.lost > 0 ==> rx.header == [])
    && |rx.header| <= f.headerLength
    && (|rx.header| < f.headerLength ==> rx.data == [])
    && (|rx.header| == f.headerLength ==> |rx.data| < f.dataLength(rx.header))
  }

  /** A recv takes no more than it is granted, wants or finds, and one of these in full. */
  function Moved(granted: nat, wanted: nat, available: nat): (n: nat)
    ensures n <= granted && n <= wanted && n <= available
    ensures n == granted || n == wanted || n == available
  {
    if granted <= wanted && granted <= available then granted
    else if wanted <= available then wanted else available
  }

  function DataStage(f: Format, rx: Rx, unread: seq<byte>, g: Grant): Reply
    requires |rx.header| == f.headerLength
    requires f.dataLength(rx.header) > 0 ==> |rx.data| < f.dataLength(rx.header)
  {
    var total := f.dataLength(rx.header);
    if total < 0 then Reply(IDLE, Closed(Malformed), unread)
    else if total == 0 then Reply(IDLE, Delivered(Event(rx.header, [])), unread)
    else match g
      case WouldBlock => Reply(rx, ShortRead, unread)
      case Fault => Reply(rx, Closed(Broken), unread)
      case Move(n) =>
        var k := Moved(n, total - |rx.data|, |unread|);
        var data := rx.data + unread[..k];
        if |data| == total then Reply(IDLE, Delivered(Event(rx.header, data)), unread[k..])
        else Reply(rx.(data := data), ShortRead, unread[k..])
  }

  /** header_recvd_ after -1 has been added to it. */
  function OneLess(rx: Rx): Rx {
    if rx.header == [] then rx.(lost := rx.lost + 1) else rx.(header := rx.header[..|rx.header| - 1])
  }

  datatype Stage = Stage(rx: Rx, unread: seq<byte>)

  /** The header-stage recv: its result is added to header_recvd_, whatever it is. */
  function HeaderStage(f: Format, rx: Rx, unread: seq<byte>, g: Grant): Stage
    requires Consistent(f, rx) && |rx.header| < f.headerLength
  {
    if !g.Move? then Stage(OneLess(rx), unread)
    else
      var k := Moved(g.n, f.headerLength - |rx.header| + rx.lost, |unread|);
      var drop := if k < rx.lost then k else rx.lost;
      Stage(Rx(rx.header + unread[drop..k], [], rx.lost - drop), unread[k..])
  }

  /** One reactor upcall. */
  function RecvCall(f: Format, rx: Rx, unread: seq<byte>, up: Upcall): Reply
    requires Consistent(f, rx)
  {
    if |rx.header| == f.headerLength then DataStage(f, rx, unread, up.data)
    else
      var h := HeaderStage(f, rx, unread, up.header);
      if |h.rx.header| == f.headerLength then DataStage(f, h.rx, h.unread, up.data)
      else if (|h.rx.header| > 0 && up.header.Move?) || up.header.WouldBlock? then Reply(h.rx, ShortRead, h.unread)
      else Reply(h.rx, Closed(Disconnected), h.unread)
  }

  /** The upcall meets a header-stage recv that would block. */
  predicate Miss(f: Format, rx: Rx, up: Upcall) {
    |rx.header| != f.headerLength && up.header == WouldBlock
  }

  lemma RecvCallKeepsConsistent(f: Format, rx: Rx, unread: seq<byte>, up: Upcall)
    requires Consistent(f, rx)
    ensures var r := RecvCall(f, rx, unread, up);
            |r.unread| <= |unread| && (!r.outcome.Closed? ==> Consistent(f, r.rx))
            && (rx.lost == 0 && !Miss(f, rx, up) && !r.outcome.Closed? ==> r.rx.lost == 0)
  {
  }

  // ---------------------------------------------------------------------------
  // One upcall against the reference parser

  /** What a reply says about the parse of the fragment held before the upcall followed
      by the bytes the upcall took. */
  predicate Agrees(f: Format, before: seq<byte>, r: Reply) {
    var p := Parse(f, before);
    match r.outcome
    case ShortRead => Consistent(f, r.rx) && r.rx.lost == 0 && p == Parsed([], Fragment(r.rx), false)
    case Delivered(e) => r.rx == IDLE && p == Parsed([e], [], false)
    case Closed(Malformed) => p.events == [] && p.bad
    case Closed(_) => p == Parsed([], before, false)
  }

  function Taken(unread: seq<byte>, r: Reply): seq<byte>
    requires |r.unread| <= |unread|
  {
    unread[..|unread| - |r.unread|]
  }

  lemma ParseWholeFrame(f: Format, e: Event)
    requires WellFormed(f, e)
    ensures Parse(f, Bytes(e)) == Parsed([e], [], false)
  {
    ParseFirst(f, e, [], Bytes(e));
  }

  lemma ParseFragment(f: Format, rx: Rx)
    requires Consistent(f, rx)
    ensures Parse(f, Fragment(rx)) == Parsed([], Fragment(rx), false)
  {
    if |rx.header| == f.headerLength {
      assert Fragment(rx)[..f.headerLength] == rx.header;
    }
  }

  lemma ParseBadHeader(f: Format, header: seq<byte>)
    requires |header| == f.headerLength && f.dataLength(header) < 0
    ensures Parse(f, header).events == [] && Parse(f, header).bad
  {
    assert header[..f.headerLength] == header;
  }

  lemma DataStageAgrees(f: Format, rx: Rx, unread: seq<byte>, g: Grant)
    requires |rx.header| == f.headerLength && rx.lost == 0
    requires f.dataLength(rx.header) > 0 ==> |rx.data| < f.dataLength(rx.header)
    requires f.dataLength(rx.header) <= 0 ==> rx.data == []
    ensures var r := DataStage(f, rx, unread, g);
            |r.unread| <= |unread| && unread == Taken(unread, r) + r.unread
            && Agrees(f, Fragment(rx) + Taken(unread, r), r)
  {
    var r := DataStage(f, rx, unread, g);
    var total := f.dataLength(rx.header);
    var k := |unread| - |r.unread|;
    assert unread == unread[..k] + unread[k..];
    Assoc(rx.header, rx.data, unread[..k]);
    if total < 0 {
      assert Fragment(rx) + unread[..k] == rx.header;
      ParseBadHeader(f, rx.header);
    } else if r.outcome.Delivered? {
      var e := r.outcome.event;
      assert Fragment(rx) + unread[..k] == Bytes(e);
      ParseWholeFrame(f, e);
    } else if r.outcome.ShortRead? {
      assert Fragment(rx) + unread[..k] == Fragment(r.rx);
      ParseFragment(f, r.rx);
    } else {
      assert Fragment(rx) + unread[..k] == Fragment(rx);
      ParseFragment(f, rx);
    }
  }

  lemma Rejoin(s: seq<byte>, k: nat)
    requires k <= |s|
    ensures s == s[..k] + s[k..]
  {
  }

  lemma TakeTwice(s: seq<byte>, k: nat, j: nat)
    requires k + j <= |s|
    ensures s[..k] + s[k..][..j] == s[..k + j] && s[k..][j..] == s[k + j..]
  {
  }

  lemma HeaderThenData(f: Format, rx: Rx, unread: seq<byte>, k: nat, g: Grant)
    requires Consistent(f, rx) && |rx.header| < f.headerLength
    requires k <= |unread| && |rx.header| + k == f.headerLength
    ensures var r := DataStage(f, Rx(rx.header + unread[..k], [], 0), unread[k..], g);
            |r.unread| <= |unread| && unread == Taken(unread, r) + r.unread
            && Agrees(f, Fragment(rx) + Taken(unread, r), r)
  {
    var header, rest := rx.header + unread[..k], unread[k..];
    var r := DataStage(f, Rx(header, [], 0), rest, g);
    DataStageAgrees(f, Rx(header, [], 0), rest, g);
    HeaderSplits(rx.header, unread, k, |Taken(rest, r)|);
  }

  lemma HeaderSplits(held: seq<byte>, unread: seq<byte>, k: nat, j: nat)
    requires k + j <= |unread|
    ensures (held + []) + unread[..k + j] == ((held + unread[..k]) + []) + unread[k..][..j]
    ensures unread[k..][j..] == unread[k + j..] && unread == unread[..k + j] + unread[k + j..]
  {
    TakeTwice(unread, k, j);
    Rejoin(unread, k + j);
    Assoc(held, unread[..k], unread[k..][..j]);
  }

  /** Every upcall without a header-stage would-block takes bytes in order and leaves
      exactly the parse of what was held and taken. */
  lemma RecvCallAgrees(f: Format, rx: Rx, unread: seq<byte>, up: Upcall)
    requires Consistent(f, rx) && rx.lost == 0 && !Miss(f, rx, up)
    ensures var r := RecvCall(f, rx, unread, up);
            |r.unread| <= |unread| && unread == Taken(unread, r) + r.unread
            && Agrees(f, Fragment(rx) + Taken(unread, r), r)
  {
    var H := f.headerLength;
    if |rx.header| == H {
      DataStageAgrees(f, rx, unread, up.data);
    } else if up.header.Fault? {
      assert Fragment(rx) + unread[..0] == Fragment(rx);
      ParseFragment(f, rx);
    } else {
      var k := Moved(up.header.n, H - |rx.header|, |unread|);
      assert unread[0..k] == unread[..k];
      if |rx.header| + k == H {
        HeaderThenData(f, rx, unread, k, up.data);
      } else {
        ShortHeader(f, rx, unread, k);
      }
    }
  }

  lemma ShortHeader(f: Format, rx: Rx, unread: seq<byte>, k: nat)
    requires Consistent(f, rx) && k <= |unread| && |rx.header| + k < f.headerLength
    ensures unread == unread[..k] + unread[k..]
    ensures Parse(f, Fragment(rx) + unread[..k]) == Parsed([], rx.header + unread[..k], false)
  {
    assert Fragment(rx) + unread[..k] == rx.header + unread[..k];
  }

  /** A readable socket and two grants of at least one byte make progress. */
  lemma RecvCallMoves(f: Format, rx: Rx, unread: seq<byte>, up: Upcall)
    requires Consistent(f, rx) && rx.lost == 0 && unread != []
    requires up.header.Move? && up.header.n > 0 && up.data.Move? && up.data.n > 0
    ensures var r := RecvCall(f, rx, unread, up);
            |r.unread| < |unread| && (r.outcome.Closed? ==> r.outcome.reason == Malformed)
  {
  }

  /** End of file is recognised exactly at a frame boundary: a zero-byte read in the
      middle of a frame is taken for a short read and changes nothing. */
  lemma EndOfFile(f: Format, rx: Rx, unread: seq<byte>)
    requires Consistent(f, rx)
    ensures var r := RecvCall(f, rx, unread, Upcall(Move(0), Move(0)));
            && (r.outcome == Closed(Disconnected) <==> Fragment(rx) == [])
            && (r.outcome == ShortRead <==> Fragment(rx) != [])
            && r.rx == rx && r.unread == unread
  {
    assert rx.header + unread[0..0] == rx.header;
    assert rx.data + unread[..0] == rx.data;
  }

  // ---------------------------------------------------------------------------
  // Whole runs

  /** misses counts the header-stage recvs of the run that would have blocked. */
  datatype Session = Session(
    events: seq<Event>, rx: Rx, unread: seq<byte>, closed: bool, malformed: bool, misses: nat)

  /** A run of upcalls; after a close the handler is never called again. */
  function Upcalls(f: Format, rx: Rx, unread: seq<byte>, ups: seq<Upcall>): Session
    requires Consistent(f, rx)
    decreases |ups|
  {
    if ups == [] then Session([], rx, unread, false, false, 0)
    else
      RecvCallKeepsConsistent(f, rx, unread, ups[0]);
      var r := RecvCall(f, rx, unread, ups[0]);
      if r.outcome.Closed? then Session([], r.rx, r.unread, true, r.outcome.reason == Malformed, 0)
      else
        var s := Upcalls(f, r.rx, r.unread, ups[1..]);
        s.(events := Emitted(r) + s.events, misses := s.misses + if Miss(f, rx, ups[0]) then 1 else 0)
  }

  function Emitted(r: Reply): seq<Event> {
    if r.outcome.Delivered? then [r.outcome.event] else []
  }

  lemma Consumed(unread: seq<byte>, t: seq<byte>, middle: seq<byte>, c: seq<byte>, end: seq<byte>)
    requires unread == t + middle && middle == c + end
    ensures |end| <= |unread| && unread[..|unread| - |end|] == t + c
    ensures unread == (t + c) + end
  {
    Assoc(t, c, end);
  }

  lemma ParseJoined(f: Format, held: seq<byte>, t: seq<byte>, c: seq<byte>)
    ensures var p := Parse(f, held + t);
            var q := Parse(f, p.rest + c);
            Parse(f, held + (t + c)) == Parsed(p.events + q.events, q.rest, q.bad)
  {
    Assoc(held, t, c);
    ParseResumes(f, held + t, c);
  }

  /** What a session that has taken the bytes t after the fragment held must have done. */
  predicate Refines(f: Format, held: seq<byte>, t: seq<byte>, s: Session) {
    var p := Parse(f, held + t);
    && s.events == p.events
    && s.malformed == p.bad
    && (!s.closed ==> Consistent(f, s.rx) && s.rx.lost == 0 && p.rest == Fragment(s.rx))
  }

  lemma RefinesJoined(f: Format, held: seq<byte>, t: seq<byte>, c: seq<byte>, r: Reply, s': Session, s: Session)
    requires Agrees(f, held + t, r) && !r.outcome.Closed?
    requires Refines(f, Fragment(r.rx), c, s')
    requires s == s'.(events := Emitted(r) + s'.events, misses := s.misses)
    ensures Refines(f, held, t + c, s)
  {
    ParseJoined(f, held, t, c);
  }

  lemma RefinesClosed(f: Format, held: seq<byte>, t: seq<byte>, r: Reply, s: Session)
    requires Agrees(f, held + t, r) && r.outcome.Closed?
    requires s == Session([], r.rx, r.unread, true, r.outcome.reason == Malformed, 0)
    ensures Refines(f, held, t, s)
  {
  }

  /** Chunk independence: whatever the sizes of the reads, as long as no header-stage recv
      would block, the events delivered and the fragment held are the parse of the bytes
      consumed. HeaderBoundary gives the converse. */
  lemma {:induction false} UpcallsRefineParse(f: Format, rx: Rx, unread: seq<byte>, ups: seq<Upcall>)
    requires Consistent(f, rx) && rx.lost == 0 && Upcalls(f, rx, unread, ups).misses == 0
    ensures var s := Upcalls(f, rx, unread, ups);
            && |s.unread| <= |unread|
            && unread == unread[..|unread| - |s.unread|] + s.unread
            && Refines(f, Fragment(rx), unread[..|unread| - |s.unread|], s)
    decreases |ups|
  {
    var s := Upcalls(f, rx, unread, ups);
    if ups == [] {
      RefinesNothing(f, rx, unread);
    } else {
      RecvCallAgrees(f, rx, unread, ups[0]);
      RecvCallKeepsConsistent(f, rx, unread, ups[0]);
      var r := RecvCall(f, rx, unread, ups[0]);
      var t := Taken(unread, r);
      if r.outcome.Closed? {
        RefinesClosed(f, Fragment(rx), t, r, s);
      } else {
        UpcallsRefineParse(f, r.rx, r.unread, ups[1..]);
        var s' := Upcalls(f, r.rx, r.unread, ups[1..]);
        var c := r.unread[..|r.unread| - |s'.unread|];
        Consumed(unread, t, r.unread, c, s'.unread);
        RefinesJoined(f, Fragment(rx), t, c, r, s', s);
      }
    }
  }

  lemma RefinesNothing(f: Format, rx: Rx, unread: seq<byte>)
    requires Consistent(f, rx) && rx.lost == 0
    ensures unread == unread[..0] + unread
    ensures Refines(f, Fragment(rx), unread[..0], Session([], rx, unread, false, false, 0))
  {
    assert Fragment(rx) + unread[..0] == Fragment(rx);
    ParseFragment(f, rx);
  }

  /** Two different schedules of reads of the same stream that have consumed equally many
      bytes have delivered the same events. */
  lemma ChunkingIsInvisible(f: Format, stream: seq<byte>, ups: seq<Upcall>, ups': seq<Upcall>)
    requires Upcalls(f, IDLE, stream, ups).misses == 0 && Upcalls(f, IDLE, stream, ups').misses == 0
    requires |Upcalls(f, IDLE, stream, ups).unread| == |Upcalls(f, IDLE, stream, ups').unread|
    ensures Upcalls(f, IDLE, stream, ups).events == Upcalls(f, IDLE, stream, ups').events
  {
    UpcallsRefineParse(f, IDLE, stream, ups);
    UpcallsRefineParse(f, IDLE, stream, ups');
  }

  // ---------------------------------------------------------------------------
  // What closes a connection, and what keeps it open

  /** header_recvd_ after the header-stage recv of the upcall. */
  function CountAfter(f: Format, rx: Rx, unread: seq<byte>, g: Grant): int
    requires Consistent(f, rx)
  {
    |rx.header| - rx.lost + if g.Move? then Moved(g.n, f.headerLength - |rx.header| + rx.lost, |unread|) else -1
  }

  /** The header the upcall has when its header-stage recv, if any, completes it. */
  function HeaderAfter(f: Format, rx: Rx, unread: seq<byte>, g: Grant): seq<byte>
    requires Consistent(f, rx) && (|rx.header| < f.headerLength ==> CountAfter(f, rx, unread, g) == f.headerLength)
    ensures |HeaderAfter(f, rx, unread, g)| == f.headerLength
  {
    if |rx.header| == f.headerLength then rx.header else rx.header + unread[rx.lost..f.headerLength - |rx.header| + rx.lost]
  }

  /** The upcall gets as far as a complete header. */
  predicate HasHeader(f: Format, rx: Rx, unread: seq<byte>, up: Upcall)
    requires Consistent(f, rx)
  {
    |rx.header| == f.headerLength || CountAfter(f, rx, unread, up.header) == f.headerLength
  }

  /** A header-stage recv fails, or leaves the count where nothing is held; or a data-stage
      recv is made and fails. */
  predicate Fails(f: Format, rx: Rx, unread: seq<byte>, up: Upcall)
    requires Consistent(f, rx)
  {
    || (|rx.header| < f.headerLength && up.header == Fault)
    || (|rx.header| < f.headerLength && up.header.Move? && CountAfter(f, rx, unread, up.header) <= 0)
    || (HasHeader(f, rx, unread, up) && f.dataLength(HeaderAfter(f, rx, unread, up.header)) > 0 && up.data == Fault)
  }

  /** Over every upcall: it closes the connection exactly when a recv fails, nothing is held
      after the header stage, or a completed header announces a negative length. */
  lemma ClosesIff(f: Format, rx: Rx, unread: seq<byte>, up: Upcall)
    requires Consistent(f, rx)
    ensures var r := RecvCall(f, rx, unread, up);
            && (r.outcome.Closed? <==>
                  || Fails(f, rx, unread, up)
                  || (HasHeader(f, rx, unread, up) && f.dataLength(HeaderAfter(f, rx, unread, up.header)) < 0))
            && (r.outcome == Closed(Malformed) <==>
                  HasHeader(f, rx, unread, up) && f.dataLength(HeaderAfter(f, rx, unread, up.header)) < 0)
  {
    if |rx.header| < f.headerLength && up.header.Move? {
      var k := Moved(up.header.n, f.headerLength - |rx.header| + rx.lost, |unread|);
      if |rx.header| - rx.lost + k == f.headerLength {
        assert rx.header + unread[rx.lost..k] == HeaderAfter(f, rx, unread, up.header);
      }
    }
  }

  /** The data stage alone, by grant: a would-block and a zero-byte read keep the connection
      and the fragment, a failed read closes, and the event is delivered exactly when the
      read brings the data announced up to its full length. */
  lemma DataStageByGrant(f: Format, rx: Rx, unread: seq<byte>, up: Upcall)
    requires Consistent(f, rx) && |rx.header| == f.headerLength
    ensures var r := RecvCall(f, rx, unread, up);
            && (up.data == WouldBlock || up.data == Move(0) ==> r == Reply(rx, ShortRead, unread))
            && (r.outcome == Closed(Broken) <==> up.data == Fault)
            && (r.outcome.Delivered? <==>
                  up.data.Move? && |rx.data| + up.data.n >= f.dataLength(rx.header)
                  && |rx.data| + |unread| >= f.dataLength(rx.header))
  {
    assert rx.data + unread[..0] == rx.data;
  }

  /** A header whose data is yet to come is kept, whole and alone, when the data would block;
      and lost with the connection when reading the data fails. */
  lemma HeaderThenNoData(f: Format, rx: Rx, unread: seq<byte>, up: Upcall)
    requires Consistent(f, rx) && |rx.header| < f.headerLength && HasHeader(f, rx, unread, up)
    requires f.dataLength(HeaderAfter(f, rx, unread, up.header)) > 0
    ensures var r := RecvCall(f, rx, unread, up);
            && (up.data == WouldBlock ==>
                  r.outcome == ShortRead && r.rx == Rx(HeaderAfter(f, rx, unread, up.header), [], 0))
            && (r.outcome == Closed(Broken) <==> up.data == Fault)
  {
    var k := Moved(up.header.n, f.headerLength - |rx.header| + rx.lost, |unread|);
    assert rx.header + unread[rx.lost..k] == HeaderAfter(f, rx, unread, up.header);
  }

  /** Some upcall of the run, reached with the connection open, fails. */
  predicate SomeFails(f: Format, rx: Rx, unread: seq<byte>, ups: seq<Upcall>)
    requires Consistent(f, rx)
    decreases |ups|
  {
    ups != [] && (
      RecvCallKeepsConsistent(f, rx, unread, ups[0]);
      var r := RecvCall(f, rx, unread, ups[0]);
      Fails(f, rx, unread, ups[0]) || (!r.outcome.Closed? && SomeFails(f, r.rx, r.unread, ups[1..])))
  }

  lemma {:induction false} ClosedIff(f: Format, rx: Rx, unread: seq<byte>, ups: seq<Upcall>)
    requires Consistent(f, rx)
    ensures var s := Upcalls(f, rx, unread, ups);
            s.closed <==> s.malformed || SomeFails(f, rx, unread, ups)
    decreases |ups|
  {
    if ups != [] {
      RecvCallKeepsConsistent(f, rx, unread, ups[0]);
      ClosesIff(f, rx, unread, ups[0]);
      var r := RecvCall(f, rx, unread, ups[0]);
      if !r.outcome.Closed? {
        ClosedIff(f, r.rx, r.unread, ups[1..]);
      }
    }
  }

  /** On a stream of well-formed frames, and as long as no header-stage recv would block, the
      receiver is still open exactly when no recv of the run has failed and none has met end
      of file with nothing held. */
  lemma OpenIff(f: Format, es: seq<Event>, ups: seq<Upcall>)
    requires AllWellFormed(f, es) && Upcalls(f, IDLE, Wire(es), ups).misses == 0
    ensures Upcalls(f, IDLE, Wire(es), ups).closed <==> SomeFails(f, IDLE, Wire(es), ups)
  {
    var w := Wire(es);
    var s := Upcalls(f, IDLE, w, ups);
    ClosedIff(f, IDLE, w, ups);
    UpcallsRefineParse(f, IDLE, w, ups);
    var t := w[..|w| - |s.unread|];
    assert Fragment(IDLE) + t == t;
    ParsePrefixOfWire(f, t, s.unread, es);
  }

  // ---------------------------------------------------------------------------
  // Header-stage recvs that would block

  /** The bytes the receiver believes to hold: header_recvd_ and the data. */
  function Counted(rx: Rx): int {
    |rx.header| - rx.lost + |rx.data|
  }

  function Length(es: seq<Event>): nat {
    |Wire(es)|
  }

  lemma DataStageCounts(f: Format, rx: Rx, unread: seq<byte>, g: Grant)
    requires |rx.header| == f.headerLength && rx.lost == 0
    requires f.dataLength(rx.header) > 0 ==> |rx.data| < f.dataLength(rx.header)
    requires f.dataLength(rx.header) <= 0 ==> rx.data == []
    ensures var r := DataStage(f, rx, unread, g);
            !r.outcome.Closed? ==>
              |unread| - |r.unread| == Length(Emitted(r)) + Counted(r.rx) - Counted(rx)
  {
    var r := DataStage(f, rx, unread, g);
    if r.outcome.Delivered? {
      WireOne(r.outcome.event);
    }
  }

  lemma RecvCallCounts(f: Format, rx: Rx, unread: seq<byte>, up: Upcall)
    requires Consistent(f, rx)
    ensures var r := RecvCall(f, rx, unread, up);
            !r.outcome.Closed? ==>
              |unread| - |r.unread|
              == Length(Emitted(r)) + Counted(r.rx) - Counted(rx) + if Miss(f, rx, up) then 1 else 0
  {
    var H := f.headerLength;
    if |rx.header| == H {
      DataStageCounts(f, rx, unread, up.data);
    } else if up.header.Move? {
      var k := Moved(up.header.n, H - |rx.header| + rx.lost, |unread|);
      var drop := if k < rx.lost then k else rx.lost;
      var header := rx.header + unread[drop..k];
      if |header| == H {
        DataStageCounts(f, Rx(header, [], 0), unread[k..], up.data);
      }
    }
  }

  /** Every header-stage recv that would block puts the receiver one byte out of step: the
      bytes taken from the stream are those delivered and believed held, plus one for each. */
  lemma {:induction false} HeaderCountDrift(f: Format, rx: Rx, unread: seq<byte>, ups: seq<Upcall>)
    requires Consistent(f, rx) && !Upcalls(f, rx, unread, ups).closed
    ensures var s := Upcalls(f, rx, unread, ups);
            && Consistent(f, s.rx)
            && |unread| - |s.unread| == Length(s.events) + Counted(s.rx) - Counted(rx) + s.misses
    decreases |ups|
  {
    if ups != [] {
      RecvCallKeepsConsistent(f, rx, unread, ups[0]);
      RecvCallCounts(f, rx, unread, ups[0]);
      var r := RecvCall(f, rx, unread, ups[0]);
      HeaderCountDrift(f, r.rx, r.unread, ups[1..]);
      WireAppend(Emitted(r), Upcalls(f, r.rx, r.unread, ups[1..]).events);
    }
  }

  lemma {:induction false} UnreadShrinks(f: Format, rx: Rx, unread: seq<byte>, ups: seq<Upcall>)
    requires Consistent(f, rx)
    ensures |Upcalls(f, rx, unread, ups).unread| <= |unread|
    decreases |ups|
  {
    if ups != [] {
      RecvCallKeepsConsistent(f, rx, unread, ups[0]);
      var r := RecvCall(f, rx, unread, ups[0]);
      if !r.outcome.Closed? {
        UnreadShrinks(f, r.rx, r.unread, ups[1..]);
      }
    }
  }

  /** So a receiver that is still open has delivered and holds the parse of the bytes it
      consumed if and only if no header-stage recv of the run would have blocked. */
  lemma HeaderBoundary(f: Format, stream: seq<byte>, ups: seq<Upcall>)
    requires !Upcalls(f, IDLE, stream, ups).closed
    ensures var s := Upcalls(f, IDLE, stream, ups);
            && |s.unread| <= |stream|
            && (Refines(f, [], stream[..|stream| - |s.unread|], s) <==> s.misses == 0)
  {
    var s := Upcalls(f, IDLE, stream, ups);
    UnreadShrinks(f, IDLE, stream, ups);
    var t := stream[..|stream| - |s.unread|];
    assert [] + t == t;
    if s.misses == 0 {
      UpcallsRefineParse(f, IDLE, stream, ups);
      assert Fragment(IDLE) == [];
    } else if Refines(f, [], t, s) {
      HeaderCountDrift(f, IDLE, stream, ups);
      ParseReassembles(f, t);
    }
  }

  /** What goes wrong: after k bytes of a header, a recv that would block makes the next
      read overwrite the k-th byte, and the header completed is not the one sent. */
  lemma MissShiftsHeader(f: Format, stream: seq<byte>, k: nat)
    requires 1 <= k < f.headerLength < |stream|
    requires f.dataLength(stream[..k - 1] + stream[k..f.headerLength + 1]) == 0
    ensures var ups := [Upcall(Move(k), WouldBlock), Upcall(WouldBlock, WouldBlock),
                        Upcall(Move(f.headerLength), WouldBlock)];
            var s := Upcalls(f, IDLE, stream, ups);
            && s.events == [Event(stream[..k - 1] + stream[k..f.headerLength + 1], [])]
            && s.unread == stream[f.headerLength + 1..] && !s.closed
  {
    var H := f.headerLength;
    var u1, u2, u3 := Upcall(Move(k), WouldBlock), Upcall(WouldBlock, WouldBlock), Upcall(Move(H), WouldBlock);
    var rest, held := stream[k..], stream[..k];
    assert [u1, u2, u3][1..] == [u2, u3] && [u2, u3][1..] == [u3] && [u3][1..] == [];
    assert [] + stream[0..k] == held;
    assert RecvCall(f, IDLE, stream, u1) == Reply(Rx(held, [], 0), ShortRead, rest);
    assert held[..k - 1] == stream[..k - 1];
    assert RecvCall(f, Rx(held, [], 0), rest, u2) == Reply(Rx(stream[..k - 1], [], 0), ShortRead, rest);
    LastRead(f, stream, k);
  }

  lemma LastRead(f: Format, stream: seq<byte>, k: nat)
    requires 1 <= k < f.headerLength < |stream|
    requires f.dataLength(stream[..k - 1] + stream[k..f.headerLength + 1]) == 0
    ensures Upcalls(f, Rx(stream[..k - 1], [], 0), stream[k..], [Upcall(Move(f.headerLength), WouldBlock)])
         == Session([Event(stream[..k - 1] + stream[k..f.headerLength + 1], [])],
                    IDLE, stream[f.headerLength + 1..], false, false, 0)
  {
    var H, rest := f.headerLength, stream[k..];
    var up := Upcall(Move(H), WouldBlock);
    assert [up][1..] == [];
    var j := H - k + 1;
    assert rest[0..j] == stream[k..H + 1];
    assert rest[j..] == stream[H + 1..];
    var header := stream[..k - 1] + stream[k..H + 1];
    assert RecvCall(f, Rx(stream[..k - 1], [], 0), rest, up)
        == Reply(IDLE, Delivered(Event(header, [])), stream[H + 1..]);
  }

  /** With no header byte held the count falls below zero, and the first byte that comes is
      lost instead. */
  lemma MissLosesByte(f: Format, stream: seq<byte>)
    requires f.headerLength < |stream| && f.dataLength(stream[1..f.headerLength + 1]) == 0
    ensures var s := Upcalls(f, IDLE, stream, [Upcall(WouldBlock, WouldBlock), Upcall(Move(f.headerLength + 1), WouldBlock)]);
            && s.events == [Event(stream[1..f.headerLength + 1], [])]
            && s.unread == stream[f.headerLength + 1..] && !s.closed
  {
    var H := f.headerLength;
    var u1, u2 := Upcall(WouldBlock, WouldBlock), Upcall(Move(H + 1), WouldBlock);
    assert [u1, u2][1..] == [u2] && [u2][1..] == [];
    var behind := Rx([], [], 1);
    assert RecvCall(f, IDLE, stream, u1) == Reply(behind, ShortRead, stream);
    ReadBehind(f, stream);
    assert Upcalls(f, behind, stream, [u2]) ==
      Session([Event(stream[1..H + 1], [])], IDLE, stream[H + 1..], false, false, 0);
  }

  lemma ReadBehind(f: Format, stream: seq<byte>)
    requires f.headerLength < |stream| && f.dataLength(stream[1..f.headerLength + 1]) == 0
    ensures RecvCall(f, Rx([], [], 1), stream, Upcall(Move(f.headerLength + 1), WouldBlock))
         == Reply(IDLE, Delivered(Event(stream[1..f.headerLength + 1], [])), stream[f.headerLength + 1..])
  {
    assert [] + stream[1..f.headerLength + 1] == stream[1..f.headerLength + 1];
  }

  lemma TwoHeaders(a: seq<byte>, b: seq<byte>)
    ensures Wire([Event(a, []), Event(b, [])]) == a + b
  {
    var es := [Event(a, []), Event(b, [])];
    assert es[1..] == [Event(b, [])];
    WireOne(Event(b, []));
  }

  lemma MissAfterOne(f: Format, w: seq<byte>) returns (ups: seq<Upcall>)
    requires f.headerLength == 2 && |w| > 2 && f.dataLength(w[1..3]) == 0
    ensures Upcalls(f, IDLE, w, ups).events == [Event(w[1..3], [])]
  {
    assert w[..0] + w[1..3] == w[1..3];
    MissShiftsHeader(f, w, 1);
    ups := [Upcall(Move(1), WouldBlock), Upcall(WouldBlock, WouldBlock), Upcall(Move(2), WouldBlock)];
  }

  /** Two header-only frames from which the receiver delivers a third, made of their middle. */
  lemma MissDeliversForeignEvent(f: Format, a: seq<byte>, b: seq<byte>) returns (es: seq<Event>, ups: seq<Upcall>)
    requires f.headerLength == |a| == |b| == 2
    requires f.dataLength(a) == f.dataLength(b) == f.dataLength([a[1], b[0]]) == 0
    ensures es == [Event(a, []), Event(b, [])] && AllWellFormed(f, es)
    ensures Upcalls(f, IDLE, Wire(es), ups).events == [Event([a[1], b[0]], [])]
  {
    es := [Event(a, []), Event(b, [])];
    TwoHeaders(a, b);
    var w := a + b;
    assert w[1..3] == [a[1], b[0]];
    ups := MissAfterOne(f, w);
  }

  // ---------------------------------------------------------------------------
  // The handler object

  class Socket {
    var unread: seq<byte>

    /** recv to position `at` of buf: the number of bytes taken, or -1. Bytes for positions
        in front of the buffer are lost. */
    method Recv(buf: array<byte>, at: int, wanted: nat, g: Grant) returns (n: int)
      requires at + wanted <= buf.Length
      modifies this`unread, buf
      ensures !g.Move? ==> n == -1 && unread == old(unread) && buf[..] == old(buf[..])
      ensures g.Move? ==>
        && n == Moved(g.n, wanted, |old(unread)|)
        && unread == old(unread)[n..]
        && buf[..Index(at + n)] == old(buf[..Index(at)]) + old(unread)[Dropped(at, n)..n]
    {
      if !g.Move? { return -1; }
      n := Moved(g.n, wanted, |unread|);
      var kept := unread[Dropped(at, n)..n];
      unread := unread[n..];
      if kept != [] {
        CopyIn(buf, Index(at), kept);
      }
    }
  }

  function Index(at: int): nat {
    if at < 0 then 0 else at
  }

  /** How many of n bytes stored from position `at` on fall in front of the buffer. */
  function Dropped(at: int, n: nat): nat {
    if at >= 0 then 0 else if n < -at then n else -at
  }

  /** The header stage in terms of the count the source keeps. */
  lemma MovedStage(f: Format, rx: Rx, stream: seq<byte>, granted: nat, n: nat, held: seq<byte>)
    requires Consistent(f, rx) && |rx.header| < f.headerLength
    requires var at := |rx.header| - rx.lost;
             && n == Moved(granted, f.headerLength - at, |stream|)
             && held == rx.header + stream[Dropped(at, n)..n]
    ensures var count := |rx.header| - rx.lost + n;
            && |held| == Index(count)
            && HeaderStage(f, rx, stream, Move(granted))
               == Stage(Rx(held, [], if count < 0 then -count else 0), stream[n..])
  {
  }

  class ReceiveHandler {
    const fmt: Format
    var headerFrag: array?<byte>
    var headerRecvd: int
    var dataFrag: array?<byte>
    var dataWritten: nat

    /** What the fields stand for. */
    ghost function Held(): Rx
      reads this, headerFrag, dataFrag
    {
      Rx(if headerFrag != null && 0 <= headerRecvd <= headerFrag.Length then headerFrag[..headerRecvd] else [],
         if dataFrag != null && dataWritten <= dataFrag.Length then dataFrag[..dataWritten] else [],
         if headerRecvd < 0 then -headerRecvd else 0)
    }

    ghost predicate Valid()
      reads this, headerFrag, dataFrag
    {
      && (headerFrag == null ==> headerRecvd == 0 && dataFrag == null)
      && (headerFrag != null ==> headerFrag.Length == fmt.headerLength && headerRecvd <= headerFrag.Length)
      && (dataFrag != null ==>
            && headerFrag != null && dataFrag != headerFrag
            && headerRecvd == fmt.headerLength
            && dataFrag.Length == fmt.dataLength(headerFrag[..])
            && dataWritten < dataFrag.Length)
      && Consistent(fmt, Held())
    }

    ghost function Buffers(): set<object>
      reads this
    {
      (if headerFrag == null then {} else {headerFrag}) + (if dataFrag == null then {} else {dataFrag})
    }

    constructor (f: Format)
      ensures fmt == f && Valid() && Held() == IDLE
    {
      fmt := f;
      headerFrag := null;
      headerRecvd := 0;
      dataFrag := null;
      dataWritten := 0;
    }

    /** One upcall does to the fields and the socket exactly what RecvCall says. */
    method RecvHeader(sock: Socket, up: Upcall) returns (outcome: Outcome)
      requires Valid()
      modifies this, Buffers(), sock
      ensures var r := RecvCall(fmt, old(Held()), old(sock.unread), up);
              && outcome == r.outcome
              && sock.unread == r.unread
              && (!outcome.Closed? ==> Valid() && Held() == r.rx)
    {
      if headerFrag == null {
        headerFrag := new byte[fmt.headerLength];
        headerRecvd := 0;
      }
      assert Held() == old(Held());
      if headerRecvd != fmt.headerLength {
        ReadHeader(sock, up.header);
        if headerRecvd != fmt.headerLength {
          if headerRecvd > 0 && up.header.Move? { return ShortRead; }
          if up.header == WouldBlock { return ShortRead; }
          return Closed(Disconnected);
        }
      }
      assert headerFrag[..] == headerFrag[..headerRecvd];
      outcome := ReadData(sock, up.data);
    }

    /** Stage 2, entered with an incomplete header. */
    method ReadHeader(sock: Socket, g: Grant)
      requires Valid() && headerFrag != null && headerRecvd < fmt.headerLength
      modifies this`headerRecvd, headerFrag, sock
      ensures headerFrag == old(headerFrag) && dataFrag == old(dataFrag) == null
      ensures headerRecvd <= fmt.headerLength
      ensures Stage(Held(), sock.unread) == HeaderStage(fmt, old(Held()), old(sock.unread), g)
    {
      ghost var before, stream := Held(), sock.unread;
      assert headerFrag[..Index(headerRecvd)] == before.header;
      var n := sock.Recv(headerFrag, headerRecvd, fmt.headerLength - headerRecvd, g);
      headerRecvd := headerRecvd + n;
      if n == -1 {
        assert headerFrag[..Index(headerRecvd + 1)] == before.header;
        assert headerFrag[..Index(headerRecvd)] == OneLess(before).header;
        assert Held() == OneLess(before);
      } else {
        MovedStage(fmt, before, stream, g.n, n, headerFrag[..Index(headerRecvd)]);
      }
    }

    /** Stages 3 to 5, entered with a complete header. */
    method ReadData(sock: Socket, g: Grant) returns (outcome: Outcome)
      requires headerFrag != null && headerRecvd == fmt.headerLength == headerFrag.Length
      requires dataFrag == null || (
                 && dataFrag != headerFrag
                 && dataFrag.Length == fmt.dataLength(headerFrag[..])
                 && dataWritten < dataFrag.Length)
      requires fmt.dataLength(Held().header) > 0 ==> |Held().data| < fmt.dataLength(Held().header)
      modifies this, Buffers(), sock
      ensures var r := DataStage(fmt, old(Held()), old(sock.unread), g);
              && outcome == r.outcome
              && sock.unread == r.unread
              && (!outcome.Closed? ==> Valid() && Held() == r.rx)
    {
      var header := headerFrag[..];
      assert Held().header == header;
      var total := fmt.dataLength(header);
      if total > 0 {
        FillData(sock, header, g);
        if !g.Move? {
          return if g == WouldBlock then ShortRead else Closed(Broken);
        }
        if dataWritten != total { return ShortRead; }
        assert dataFrag[..] == dataFrag[..dataWritten];
        outcome := Delivered(Event(header, dataFrag[..]));
        Reset();
      } else if total < 0 {
        Reset();
        outcome := Closed(Malformed);
      } else {
        outcome := Delivered(Event(header, []));
        Reset();
      }
    }

    /** Stages 3 and 4: allocate the data block if there is none, and read into it. */
    method FillData(sock: Socket, header: seq<byte>, g: Grant)
      requires headerFrag != null && headerRecvd == fmt.headerLength == headerFrag.Length
      requires header == headerFrag[..] && fmt.dataLength(header) > 0
      requires dataFrag == null || (
                 && dataFrag != headerFrag
                 && dataFrag.Length == fmt.dataLength(header)
                 && dataWritten < dataFrag.Length)
      modifies this`dataFrag, this`dataWritten, (if dataFrag == null then {} else {dataFrag}), sock
      ensures headerFrag == old(headerFrag) && headerFrag[..] == header
      ensures dataFrag != null && dataFrag != headerFrag && dataFrag.Length == fmt.dataLength(header)
      ensures var before := old(Held().data);
              var k := if g.Move? then Moved(g.n, fmt.dataLength(header) - |before|, |old(sock.unread)|) else 0;
              && sock.unread == old(sock.unread)[k..]
              && dataWritten == |before| + k <= dataFrag.Length
              && Held() == Rx(header, before + old(sock.unread)[..k], 0)
    {
      ghost var before := Held().data;
      if dataFrag == null {
        dataFrag := new byte[fmt.dataLength(header)];
        dataWritten := 0;
      }
      assert dataFrag[..dataWritten] == before;
      var n := sock.Recv(dataFrag, dataWritten, dataFrag.Length - dataWritten, g);
      if n == -1 {
        assert dataFrag[..dataWritten] == before + old(sock.unread)[..0];
      } else {
        dataWritten := dataWritten + n;
        assert dataFrag[..dataWritten] == before + old(sock.unread)[..n];
      }
    }

    method Reset()
      modifies this
      ensures Valid() && Held() == IDLE
    {
      headerFrag := null;
      headerRecvd := 0;
      dataFrag := null;
      dataWritten := 0;
    }
  }
}
