/**
 * The byte-level framing shared by the dispatcher and the Ruby peer: a frame is a
 * fixed-length header followed by as many data bytes as the header announces.
 * `Parse` is the reference reading of a byte stream; `Wire` is its inverse.
 */
module Frames {

  newtype byte = x: int | 0 <= x < 256

  /** Header length and the (abstract) decoding of the data-length field. */
  datatype RawFormat = RawFormat(headerLength: nat, dataLength: seq<byte> -> int)

  type Format = f: RawFormat | f.headerLength > 0 witness RawFormat(1, h => 0)

  datatype Event = Event(header: seq<byte>, data: seq<byte>)

  /** The complete frames of a stream, the unfinished tail, and whether the tail
      starts with a header that announces a negative length. */
  datatype Parsed = Parsed(events: seq<Event>, rest: seq<byte>, bad: bool)

  predicate WellFormed(f: Format, e: Event) {
    |e.header| == f.headerLength && f.dataLength(e.header) == |e.data|
  }

  predicate AllWellFormed(f: Format, es: seq<Event>) {
    forall i :: 0 <= i < |es| ==> WellFormed(f, es[i])
  }

  function Bytes(e: Event): seq<byte> {
    e.header + e.data
  }

  function Wire(es: seq<Event>): seq<byte> {
    if es == [] then [] else Bytes(es[0]) + Wire(es[1..])
  }

  function Flatten<T>(blocks: seq<seq<T>>): seq<T> {
    if blocks == [] then [] else blocks[0] + Flatten(blocks[1..])
  }

  function Parse(f: Format, s: seq<byte>): Parsed
    decreases |s|
  {
    var H := f.headerLength;
    if |s| < H then Parsed([], s, false)
    else
      var n := f.dataLength(s[..H]);
      if n < 0 then Parsed([], s, true)
      else if |s| < H + n then Parsed([], s, false)
      else
        var p := Parse(f, s[H + n..]);
        Parsed([Event(s[..H], s[H..H + n])] + p.events, p.rest, p.bad)
  }

  lemma Assoc<T>(a: seq<T>, b: seq<T>, c: seq<T>)
    ensures (a + b) + c == a + (b + c)
  {
  }

  lemma {:induction false} FlattenAppend<T>(a: seq<seq<T>>, b: seq<seq<T>>)
    ensures Flatten(a + b) == Flatten(a) + Flatten(b)
  {
    if a == [] {
      assert a + b == b;
    } else {
      assert (a + b)[0] == a[0] && (a + b)[1..] == a[1..] + b;
      calc {
        Flatten(a + b);
        a[0] + Flatten(a[1..] + b);
        { FlattenAppend(a[1..], b); }
        a[0] + (Flatten(a[1..]) + Flatten(b));
        { Assoc(a[0], Flatten(a[1..]), Flatten(b)); }
        Flatten(a) + Flatten(b);
      }
    }
  }

  lemma {:induction false} WireAppend(a: seq<Event>, b: seq<Event>)
    ensures Wire(a + b) == Wire(a) + Wire(b)
  {
    if a == [] {
      assert a + b == b;
    } else {
      assert (a + b)[0] == a[0] && (a + b)[1..] == a[1..] + b;
      var head := Bytes(a[0]);
      calc {
        Wire(a + b);
        head + Wire(a[1..] + b);
        { WireAppend(a[1..], b); }
        head + (Wire(a[1..]) + Wire(b));
        { Assoc(head, Wire(a[1..]), Wire(b)); }
        Wire(a) + Wire(b);
      }
    }
  }

  lemma WireOne(e: Event)
    ensures Wire([e]) == Bytes(e)
  {
    assert [e][1..] == [];
  }

  /** The first frame of a stream that holds at least one complete frame. */
  lemma SplitFirst(s: seq<byte>, h: nat, n: nat)
    requires h + n <= |s|
    ensures s == (s[..h] + s[h..h + n]) + s[h + n..]
  {
  }

  /** Parsing loses nothing and only ever reports well-formed frames. */
  lemma {:induction false} ParseReassembles(f: Format, s: seq<byte>)
    ensures var p := Parse(f, s);
            Wire(p.events) + p.rest == s && AllWellFormed(f, p.events)
            && Parse(f, p.rest) == Parsed([], p.rest, p.bad)
    decreases |s|
  {
    var H := f.headerLength;
    if |s| >= H && 0 <= f.dataLength(s[..H]) <= |s| - H {
      var n := f.dataLength(s[..H]);
      var e, tail := Event(s[..H], s[H..H + n]), s[H + n..];
      var p, q := Parse(f, s), Parse(f, tail);
      ParseReassembles(f, tail);
      assert p.events == [e] + q.events && p.events[1..] == q.events;
      calc {
        Wire(p.events) + p.rest;
        (Bytes(e) + Wire(q.events)) + q.rest;
        { Assoc(Bytes(e), Wire(q.events), q.rest); }
        Bytes(e) + tail;
        { SplitFirst(s, H, n); }
        s;
      }
    } else {
      assert [] + s == s;
    }
  }

  /** Parsing stops at an incomplete frame, or at a whole header that announces a negative
      length, and says which. */
  lemma {:induction false} ParseStops(f: Format, s: seq<byte>)
    ensures var p := Parse(f, s);
            && (p.bad <==> |p.rest| >= f.headerLength && f.dataLength(p.rest[..f.headerLength]) < 0)
            && (!p.bad ==> |p.rest| < f.headerLength || |p.rest| < f.headerLength + f.dataLength(p.rest[..f.headerLength]))
  {
    ParseReassembles(f, s);
    Unparsed(f, Parse(f, s).rest);
  }

  lemma {:induction false} Unparsed(f: Format, s: seq<byte>)
    requires Parse(f, s).events == []
    ensures Parse(f, s).bad <==> |s| >= f.headerLength && f.dataLength(s[..f.headerLength]) < 0
    ensures !Parse(f, s).bad ==> |s| < f.headerLength || |s| < f.headerLength + f.dataLength(s[..f.headerLength])
  {
  }

  lemma FrameParts(e: Event, t: seq<byte>, s: seq<byte>)
    requires s == Bytes(e) + t
    ensures var H, n := |e.header|, |e.data|;
            H + n <= |s| && s[..H] == e.header && s[H..H + n] == e.data && s[H + n..] == t
  {
  }

  lemma ParseFirst(f: Format, e: Event, t: seq<byte>, s: seq<byte>)
    requires WellFormed(f, e) && s == Bytes(e) + t
    ensures var p := Parse(f, t);
            Parse(f, s) == Parsed([e] + p.events, p.rest, p.bad)
  {
    FrameParts(e, t, s);
  }

  lemma WireFirst(es: seq<Event>, t: seq<byte>)
    requires es != []
    ensures Wire(es) + t == Bytes(es[0]) + (Wire(es[1..]) + t)
  {
    Assoc(Bytes(es[0]), Wire(es[1..]), t);
  }

  lemma PutBack(es: seq<Event>, more: seq<Event>)
    requires es != []
    ensures [es[0]] + (es[1..] + more) == es + more
  {
  }

  /** Frames in front of a stream are read off one by one, whatever follows. */
  lemma {:induction false} ParseAfterFrames(f: Format, es: seq<Event>, t: seq<byte>, s: seq<byte>)
    requires AllWellFormed(f, es) && s == Wire(es) + t
    ensures var p := Parse(f, t);
            Parse(f, s) == Parsed(es + p.events, p.rest, p.bad)
    decreases |es|
  {
    if es == [] {
      assert s == t;
    } else {
      var u := Wire(es[1..]) + t;
      WireFirst(es, t);
      ParseFirst(f, es[0], u, s);
      ParseAfterFrames(f, es[1..], t, u);
      PutBack(es, Parse(f, t).events);
    }
  }

  /** Round trip: a stream of well-formed frames parses back to exactly those frames. */
  lemma ParseOfWire(f: Format, es: seq<Event>)
    requires AllWellFormed(f, es)
    ensures Parse(f, Wire(es)) == Parsed(es, [], false)
  {
    ParseAfterFrames(f, es, [], Wire(es));
  }

  /** Incrementality: parsing can stop anywhere and resume from the unfinished tail. */
  lemma ParseResumes(f: Format, a: seq<byte>, b: seq<byte>)
    ensures var p := Parse(f, a);
            var q := Parse(f, p.rest + b);
            Parse(f, a + b) == Parsed(p.events + q.events, q.rest, q.bad)
  {
    var p := Parse(f, a);
    ParseReassembles(f, a);
    Assoc(Wire(p.events), p.rest, b);
    ParseAfterFrames(f, p.events, p.rest + b, a + b);
  }

  /** A malformed header stays malformed however many bytes follow. */
  lemma BadStaysBad(f: Format, a: seq<byte>, b: seq<byte>)
    requires Parse(f, a).bad
    ensures Parse(f, a + b) == Parsed(Parse(f, a).events, Parse(f, a).rest + b, true)
  {
    var p := Parse(f, a);
    ParseResumes(f, a, b);
    ParseReassembles(f, a);
    assert (p.rest + b)[..f.headerLength] == p.rest[..f.headerLength];
    assert p.events + [] == p.events;
  }

  /** What any prefix of a stream of well-formed frames parses to. */
  lemma ParsePrefixOfWire(f: Format, s: seq<byte>, t: seq<byte>, es: seq<Event>)
    requires AllWellFormed(f, es) && s + t == Wire(es)
    ensures var p := Parse(f, s);
            !p.bad && p.events <= es && (t == [] ==> p.events == es && p.rest == [])
  {
    ParseOfWire(f, es);
    if Parse(f, s).bad {
      BadStaysBad(f, s, t);
    }
    ParseResumes(f, s, t);
    if t == [] {
      assert s + t == s;
    }
  }

  /** Copy bytes into a buffer behind those already there. */
  method CopyIn(buf: array<byte>, at: nat, src: seq<byte>)
    requires at + |src| <= buf.Length
    modifies buf
    ensures buf[..at + |src|] == old(buf[..at]) + src
  {
    var i := 0;
    while i < |src|
      invariant 0 <= i <= |src|
      invariant buf[..at + i] == old(buf[..at]) + src[..i]
    {
      buf[at + i] := src[i];
      i := i + 1;
    }
  }
}
