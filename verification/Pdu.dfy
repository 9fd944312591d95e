/**
 * The Entity State PDU packer: fields laid out back to back in a 1500-byte buffer and
 * stored in network byte order by reversing the host's bytes. A field value is the byte
 * sequence of the host's (little-endian) representation, whatever its C++ type.
 */
module Pdu {
  import Frames

  type byte = Frames.byte

  const CAPACITY: nat := 1500
  const PARAMETERS: nat := 78

  // Indices into the layout below
  const PDU_TYPE: nat := 2
  const NUM_PARAMETERS: nat := 11
  const FIXED_FIELDS: nat := 71

  // ---------------------------------------------------------------------------
  // Layouts: a sequence of field sizes, allocated in declaration order

  function Offset(sizes: seq<nat>, i: nat): nat
    requires i <= |sizes|
  {
    if i == 0 then 0 else Offset(sizes, i - 1) + sizes[i - 1]
  }

  function Total(sizes: seq<nat>): nat {
    Offset(sizes, |sizes|)
  }

  function Repeat(sizes: seq<nat>, n: nat): seq<nat> {
    if n == 0 then [] else Repeat(sizes, n - 1) + sizes
  }

  function Array(size: nat, n: nat): seq<nat> {
    seq(n, _ => size)
  }

  function Header(): seq<nat> { [1, 1, 1, 1, 4, 2, 2] }
  function EntityId(): seq<nat> { [2, 2, 2] }
  function EnumType(): seq<nat> { [1, 1, 2, 1, 1, 1, 1] }
  function ArtParam(): seq<nat> { [1, 1, 2, 4, 8] }

  /** Header, identity, force, parameter count and the two entity types. */
  function Leading(): seq<nat> {
    Header() + EntityId() + [1, 1] + EnumType() + EnumType()
  }

  /** Velocity, location, orientation, appearance. */
  function Motion(): seq<nat> {
    (Array(4, 3) + Array(8, 3)) + (Array(4, 3) + [4])
  }

  /** Dead reckoning, accelerations, marking, capabilities. */
  function Trailing(): seq<nat> {
    ([1] + Array(1, 15)) + (Array(4, 3) + Array(4, 3)) + ([1] + Array(1, 11)) + [4]
  }

  function Fixed(): seq<nat> {
    Leading() + Motion() + Trailing()
  }

  /** The layout with room for a number of articulation parameters; the source has 78. */
  function Layout(parameters: nat): seq<nat> {
    Fixed() + Repeat(ArtParam(), parameters)
  }

  lemma {:induction false} OffsetAppend(a: seq<nat>, b: seq<nat>, i: nat)
    requires i <= |a| + |b|
    ensures Offset(a + b, i) == if i <= |a| then Offset(a, i) else Total(a) + Offset(b, i - |a|)
  {
    if i > 0 {
      OffsetAppend(a, b, i - 1);
    }
  }

  lemma TotalAppend(a: seq<nat>, b: seq<nat>)
    ensures Total(a + b) == Total(a) + Total(b)
  {
    OffsetAppend(a, b, |a + b|);
  }

  lemma {:induction false} RepeatOffset(sizes: seq<nat>, n: nat, j: nat, f: nat)
    requires j < n && f < |sizes|
    ensures |Repeat(sizes, n)| == n * |sizes| && 0 <= j * |sizes| + f < n * |sizes|
    ensures Offset(Repeat(sizes, n), j * |sizes| + f) == j * Total(sizes) + Offset(sizes, f)
    ensures Repeat(sizes, n)[j * |sizes| + f] == sizes[f]
  {
    RepeatTotal(sizes, n);
    RepeatTotal(sizes, n - 1);
    assert (n - 1) * |sizes| + |sizes| == n * |sizes|;
    if j < n - 1 {
      RepeatOffset(sizes, n - 1, j, f);
    }
    OffsetAppend(Repeat(sizes, n - 1), sizes, j * |sizes| + f);
  }

  lemma {:induction false} RepeatTotal(sizes: seq<nat>, n: nat)
    ensures |Repeat(sizes, n)| == n * |sizes|
    ensures Total(Repeat(sizes, n)) == n * Total(sizes)
  {
    if n > 0 {
      RepeatTotal(sizes, n - 1);
      TotalAppend(Repeat(sizes, n - 1), sizes);
      assert (n - 1) * |sizes| + |sizes| == n * |sizes|;
      assert (n - 1) * Total(sizes) + Total(sizes) == n * Total(sizes);
    }
  }

  lemma {:induction false} ArrayOffset(size: nat, n: nat, i: nat)
    requires i <= n
    ensures Offset(Array(size, n), i) == i * size
  {
    if i > 0 {
      ArrayOffset(size, n, i - 1);
    }
  }

  lemma ThreeParts(a: seq<nat>, b: seq<nat>, c: seq<nat>)
    ensures Total(a + b + c) == Total(a) + Total(b) + Total(c)
    ensures forall i: nat :: i <= |a| ==> Offset(a + b + c, i) == Offset(a, i)
  {
    TotalAppend(a, b);
    TotalAppend(a + b, c);
    forall i: nat | i <= |a|
      ensures Offset(a + b + c, i) == Offset(a, i)
    {
      OffsetAppend(a, b, i);
      OffsetAppend(a + b, c, i);
    }
  }

  lemma Structures()
    ensures Offset(Header(), PDU_TYPE) == 2 && Total(Header()) == 12
    ensures Total(EntityId()) == 6 && Total(EnumType()) == 8
  {
    assert Offset(Header(), 2) == 2;
    assert Offset(Header(), 4) == 4;
    assert Offset(Header(), 6) == 10;
    assert Offset(EntityId(), 2) == 4;
    assert Offset(EnumType(), 2) == 2;
    assert Offset(EnumType(), 4) == 5;
    assert Offset(EnumType(), 6) == 7;
  }

  lemma LeadingPart()
    ensures |Leading()| == 26 && Total(Leading()) == 36
    ensures Leading()[PDU_TYPE] == 1 && Offset(Leading(), PDU_TYPE) == 2
    ensures Leading()[NUM_PARAMETERS] == 1 && Offset(Leading(), NUM_PARAMETERS) == 19
  {
    var ids := Header() + EntityId() + [1, 1];
    ThreeParts(Header(), EntityId(), [1, 1]);
    ThreeParts(ids, EnumType(), EnumType());
    Structures();
    TotalAppend(Header(), EntityId());
    OffsetAppend(Header() + EntityId(), [1, 1], NUM_PARAMETERS);
  }

  lemma MotionPart()
    ensures |Motion()| == 10 && Total(Motion()) == 52
  {
    ArrayOffset(4, 3, 3);
    ArrayOffset(8, 3, 3);
    TotalAppend(Array(4, 3), Array(8, 3));
    TotalAppend(Array(4, 3), [4]);
    TotalAppend(Array(4, 3) + Array(8, 3), Array(4, 3) + [4]);
  }

  lemma TrailingPart()
    ensures |Trailing()| == 35 && Total(Trailing()) == 56
  {
    ArrayOffset(1, 15, 15);
    ArrayOffset(4, 3, 3);
    ArrayOffset(1, 11, 11);
    TotalAppend([1], Array(1, 15));
    TotalAppend(Array(4, 3), Array(4, 3));
    TotalAppend([1], Array(1, 11));
    var a, b, c := [1] + Array(1, 15), Array(4, 3) + Array(4, 3), [1] + Array(1, 11);
    ThreeParts(a, b, c);
    TotalAppend(a + b + c, [4]);
  }

  /** The fixed part: 144 bytes in 71 fields. */
  lemma FixedPart()
    ensures |Fixed()| == FIXED_FIELDS && Total(Fixed()) == 144
    ensures Fixed()[PDU_TYPE] == 1 && Offset(Fixed(), PDU_TYPE) == 2
    ensures Fixed()[NUM_PARAMETERS] == 1 && Offset(Fixed(), NUM_PARAMETERS) == 19
  {
    LeadingPart();
    MotionPart();
    TrailingPart();
    ThreeParts(Leading(), Motion(), Trailing());
  }

  /** What the rest of this module uses of the layout. */
  ghost predicate EntityLayout(sizes: seq<nat>, parameters: nat) {
    && |sizes| == FIXED_FIELDS + 5 * parameters
    && Total(sizes) == 144 + 16 * parameters
    && sizes[PDU_TYPE] == 1 && Offset(sizes, PDU_TYPE) == 2
    && sizes[NUM_PARAMETERS] == 1 && Offset(sizes, NUM_PARAMETERS) == 19
    && forall j: nat :: j <= parameters ==> ParameterStarts(sizes, j)
  }

  /** Articulation parameter j starts at byte 144 + 16 j. */
  predicate ParameterStarts(sizes: seq<nat>, j: nat) {
    FIXED_FIELDS + 5 * j <= |sizes| && Offset(sizes, FIXED_FIELDS + 5 * j) == 144 + 16 * j
  }

  lemma ParameterStart(fixed: seq<nat>, parameters: nat, j: nat)
    requires |fixed| == FIXED_FIELDS && Total(fixed) == 144 && j <= parameters
    ensures ParameterStarts(fixed + Repeat(ArtParam(), parameters), j)
  {
    var params := Repeat(ArtParam(), parameters);
    ParamTotal();
    RepeatTotal(ArtParam(), parameters);
    if j < parameters {
      RepeatOffset(ArtParam(), parameters, j, 0);
    }
    OffsetAppend(fixed, params, FIXED_FIELDS + 5 * j);
  }

  lemma LayoutOf(fixed: seq<nat>, parameters: nat)
    requires |fixed| == FIXED_FIELDS && Total(fixed) == 144
    requires fixed[PDU_TYPE] == 1 && Offset(fixed, PDU_TYPE) == 2
    requires fixed[NUM_PARAMETERS] == 1 && Offset(fixed, NUM_PARAMETERS) == 19
    ensures EntityLayout(fixed + Repeat(ArtParam(), parameters), parameters)
  {
    var params := Repeat(ArtParam(), parameters);
    ParamTotal();
    RepeatTotal(ArtParam(), parameters);
    TotalAppend(fixed, params);
    OffsetAppend(fixed, params, PDU_TYPE);
    OffsetAppend(fixed, params, NUM_PARAMETERS);
    forall j: nat | j <= parameters
      ensures ParameterStarts(fixed + params, j)
    {
      ParameterStart(fixed, parameters, j);
    }
  }

  lemma LayoutSizes(parameters: nat)
    ensures EntityLayout(Layout(parameters), parameters)
  {
    FixedPart();
    LayoutOf(Fixed(), parameters);
  }

  lemma ParamTotal()
    ensures |ArtParam()| == 5 && Total(ArtParam()) == 16
  {
  }

  /** The layout with the source's 78 parameters fits its buffer. */
  lemma LayoutFitsBuffer()
    ensures Total(Layout(PARAMETERS)) == 144 + 78 * 16 <= CAPACITY
  {
    var p := PARAMETERS;
    LayoutSizes(p);
  }

  // ---------------------------------------------------------------------------
  // Where each named field lies

  const ENTITY_ID: nat := 7
  const FORCE_ID: nat := 10
  const ENTITY_TYPE: nat := 12
  const ALT_ENTITY_TYPE: nat := 19
  const VELOCITY: nat := 26
  const LOCATION: nat := 29
  const ORIENTATION: nat := 32
  const APPEARANCE: nat := 35
  const DEAD_RECKONING: nat := 36
  const DEAD_RECKONING_PARAMS: nat := 37
  const ACCELERATION: nat := 52
  const ANGULAR_VELOCITY: nat := 55
  const CHARACTER_SET: nat := 58
  const MARKING: nat := 59
  const CAPABILITIES: nat := 70

  predicate Placed(sizes: seq<nat>, i: nat, at: nat, width: nat) {
    i < |sizes| && Offset(sizes, i) == at && sizes[i] == width
  }

  /** Version, exercise, type, family; time stamp; length; padding. */
  predicate HeaderAt(sizes: seq<nat>, i: nat, at: nat) {
    && Placed(sizes, i, at, 1) && Placed(sizes, i + 1, at + 1, 1)
    && Placed(sizes, i + 2, at + 2, 1) && Placed(sizes, i + 3, at + 3, 1)
    && Placed(sizes, i + 4, at + 4, 4) && Placed(sizes, i + 5, at + 8, 2) && Placed(sizes, i + 6, at + 10, 2)
  }

  /** Kind, domain; country; category, subcategory, specific, extra. */
  predicate EnumTypeAt(sizes: seq<nat>, i: nat, at: nat) {
    && Placed(sizes, i, at, 1) && Placed(sizes, i + 1, at + 1, 1) && Placed(sizes, i + 2, at + 2, 2)
    && Placed(sizes, i + 3, at + 4, 1) && Placed(sizes, i + 4, at + 5, 1)
    && Placed(sizes, i + 5, at + 6, 1) && Placed(sizes, i + 6, at + 7, 1)
  }

  /** Designator, change; attachment; parameter type; value. */
  predicate ArtParamAt(sizes: seq<nat>, i: nat, at: nat) {
    && Placed(sizes, i, at, 1) && Placed(sizes, i + 1, at + 1, 1) && Placed(sizes, i + 2, at + 2, 2)
    && Placed(sizes, i + 3, at + 4, 4) && Placed(sizes, i + 4, at + 8, 8)
  }

  predicate ArrayAt(sizes: seq<nat>, i: nat, at: nat, width: nat, n: nat) {
    forall k: nat :: k < n ==> Placed(sizes, i + k, at + width * k, width)
  }

  /** Header, site/application/entity, force, parameter count, the two types. */
  predicate LeadingAt(sizes: seq<nat>) {
    && HeaderAt(sizes, 0, 0) && ArrayAt(sizes, ENTITY_ID, 12, 2, 3)
    && Placed(sizes, FORCE_ID, 18, 1) && Placed(sizes, NUM_PARAMETERS, 19, 1)
    && EnumTypeAt(sizes, ENTITY_TYPE, 20) && EnumTypeAt(sizes, ALT_ENTITY_TYPE, 28)
  }

  /** Single velocity, double location, single orientation; appearance. */
  predicate MotionAt(sizes: seq<nat>, i: nat, at: nat) {
    && ArrayAt(sizes, i, at, 4, 3) && ArrayAt(sizes, i + 3, at + 12, 8, 3)
    && ArrayAt(sizes, i + 6, at + 36, 4, 3) && Placed(sizes, i + 9, at + 48, 4)
  }

  predicate TrailingAt(sizes: seq<nat>, i: nat, at: nat) {
    && Placed(sizes, i, at, 1) && ArrayAt(sizes, i + 1, at + 1, 1, 15)
    && ArrayAt(sizes, i + 16, at + 16, 4, 3) && ArrayAt(sizes, i + 19, at + 28, 4, 3)
    && Placed(sizes, i + 22, at + 40, 1) && ArrayAt(sizes, i + 23, at + 41, 1, 11) && Placed(sizes, i + 34, at + 52, 4)
  }

  /** A part keeps its inner places wherever it is put. */
  lemma Within(a: seq<nat>, b: seq<nat>, c: seq<nat>)
    ensures forall i, at, width :: Placed(b, i, at, width) ==> Placed(a + b + c, |a| + i, Total(a) + at, width)
  {
    forall i, at, width | Placed(b, i, at, width)
      ensures Placed(a + b + c, |a| + i, Total(a) + at, width)
    {
      OffsetAppend(a + b, c, |a| + i);
      OffsetAppend(a, b, |a| + i);
    }
  }

  lemma ArrayPlaces(width: nat, n: nat)
    ensures ArrayAt(Array(width, n), 0, 0, width, n)
  {
    forall k: nat | k < n
      ensures Placed(Array(width, n), k, width * k, width)
    {
      ArrayOffset(width, n, k);
    }
  }

  lemma ArrayWithin(a: seq<nat>, width: nat, n: nat, c: seq<nat>)
    ensures ArrayAt(a + Array(width, n) + c, |a|, Total(a), width, n)
  {
    ArrayPlaces(width, n);
    Within(a, Array(width, n), c);
    forall k: nat | k < n
      ensures Placed(a + Array(width, n) + c, |a| + k, Total(a) + width * k, width)
    {
      assert Placed(Array(width, n), 0 + k, 0 + width * k, width);
    }
  }

  lemma OneWithin(a: seq<nat>, width: nat, c: seq<nat>)
    ensures Placed(a + [width] + c, |a|, Total(a), width)
  {
    Within(a, [width], c);
    assert Placed([width], 0, 0, width);
  }

  lemma HeaderPlaces()
    ensures HeaderAt(Header(), 0, 0) && |Header()| == 7 && Total(Header()) == 12
  {
    var s := Header();
    assert Placed(s, 1, 1, 1) && Placed(s, 2, 2, 1);
    assert Placed(s, 3, 3, 1) && Placed(s, 4, 4, 4);
    assert Placed(s, 5, 8, 2) && Placed(s, 6, 10, 2);
  }

  lemma EnumTypePlaces()
    ensures EnumTypeAt(EnumType(), 0, 0) && |EnumType()| == 7 && Total(EnumType()) == 8
  {
    var s := EnumType();
    assert Placed(s, 1, 1, 1) && Placed(s, 2, 2, 2);
    assert Placed(s, 3, 4, 1) && Placed(s, 4, 5, 1);
    assert Placed(s, 5, 6, 1) && Placed(s, 6, 7, 1);
  }

  lemma ArtParamPlaces()
    ensures ArtParamAt(ArtParam(), 0, 0)
  {
    var s := ArtParam();
    assert Placed(s, 1, 1, 1) && Placed(s, 2, 2, 2);
    assert Placed(s, 3, 4, 4) && Placed(s, 4, 8, 8);
  }

  lemma HeaderWithin(a: seq<nat>, c: seq<nat>)
    ensures HeaderAt(a + Header() + c, |a|, Total(a))
  {
    HeaderPlaces();
    Within(a, Header(), c);
  }

  lemma EnumTypeWithin(a: seq<nat>, c: seq<nat>)
    ensures EnumTypeAt(a + EnumType() + c, |a|, Total(a))
  {
    EnumTypePlaces();
    Within(a, EnumType(), c);
  }

  lemma ArtParamWithin(a: seq<nat>, c: seq<nat>)
    ensures ArtParamAt(a + ArtParam() + c, |a|, Total(a))
  {
    ArtParamPlaces();
    Within(a, ArtParam(), c);
  }

  lemma LeadingIds()
    ensures HeaderAt(Leading(), 0, 0) && ArrayAt(Leading(), ENTITY_ID, 12, 2, 3)
  {
    HeaderPlaces();
    var rest := [1, 1] + EnumType() + EnumType();
    assert EntityId() == Array(2, 3);
    HeaderWithin([], EntityId() + rest);
    assert [] + Header() + (EntityId() + rest) == Leading();
    ArrayWithin(Header(), 2, 3, rest);
    assert Header() + Array(2, 3) + rest == Leading();
  }

  lemma LeadingCounts()
    ensures Placed(Leading(), FORCE_ID, 18, 1) && Placed(Leading(), NUM_PARAMETERS, 19, 1)
  {
    Structures();
    var ids, types := Header() + EntityId(), EnumType() + EnumType();
    TotalAppend(Header(), EntityId());
    OneWithin(ids, 1, [1] + types);
    assert ids + [1] + ([1] + types) == Leading();
    TotalAppend(ids, [1]);
    OneWithin(ids + [1], 1, types);
    assert ids + [1] + [1] + types == Leading();
  }

  lemma LeadingTypes()
    ensures EnumTypeAt(Leading(), ENTITY_TYPE, 20) && EnumTypeAt(Leading(), ALT_ENTITY_TYPE, 28)
  {
    Structures();
    var ids := Header() + EntityId() + [1, 1];
    ThreeParts(Header(), EntityId(), [1, 1]);
    EnumTypeWithin(ids, EnumType());
    assert ids + EnumType() + EnumType() == Leading();
    TotalAppend(ids, EnumType());
    EnumTypeWithin(ids + EnumType(), []);
    assert ids + EnumType() + EnumType() + [] == Leading();
  }

  lemma MotionPlaces()
    ensures MotionAt(Motion(), 0, 0)
  {
    ArrayOffset(4, 3, 3);
    ArrayOffset(8, 3, 3);
    var v, l, o := Array(4, 3), Array(8, 3), Array(4, 3);
    TotalAppend(v, l);
    TotalAppend(v + l, o);
    ArrayWithin([], 4, 3, l + (o + [4]));
    assert [] + v + (l + (o + [4])) == Motion();
    ArrayWithin(v, 8, 3, o + [4]);
    assert v + l + (o + [4]) == Motion();
    ArrayWithin(v + l, 4, 3, [4]);
    assert v + l + o + [4] == Motion();
    OneWithin(v + l + o, 4, []);
    assert v + l + o + [4] + [] == Motion();
  }

  lemma TrailingFront()
    ensures Placed(Trailing(), 0, 0, 1) && ArrayAt(Trailing(), 1, 1, 1, 15)
    ensures ArrayAt(Trailing(), 16, 16, 4, 3) && ArrayAt(Trailing(), 19, 28, 4, 3)
  {
    ArrayOffset(1, 15, 15);
    ArrayOffset(4, 3, 3);
    var d, a, v, rest := [1] + Array(1, 15), Array(4, 3), Array(4, 3), ([1] + Array(1, 11)) + [4];
    TotalAppend([1], Array(1, 15));
    TotalAppend(d, a);
    OneWithin([], 1, Array(1, 15) + (a + v + rest));
    assert [] + [1] + (Array(1, 15) + (a + v + rest)) == Trailing();
    ArrayWithin([1], 1, 15, a + v + rest);
    assert [1] + Array(1, 15) + (a + v + rest) == Trailing();
    ArrayWithin(d, 4, 3, v + rest);
    assert d + a + (v + rest) == Trailing();
    ArrayWithin(d + a, 4, 3, rest);
    assert d + a + v + rest == Trailing();
  }

  lemma TrailingBack()
    ensures Placed(Trailing(), 22, 40, 1) && ArrayAt(Trailing(), 23, 41, 1, 11) && Placed(Trailing(), 34, 52, 4)
  {
    ArrayOffset(1, 15, 15);
    ArrayOffset(4, 3, 3);
    ArrayOffset(1, 11, 11);
    var front, m := [1] + Array(1, 15) + (Array(4, 3) + Array(4, 3)), Array(1, 11);
    TotalAppend([1], Array(1, 15));
    TotalAppend(Array(4, 3), Array(4, 3));
    TotalAppend([1] + Array(1, 15), Array(4, 3) + Array(4, 3));
    OneWithin(front, 1, m + [4]);
    assert front + [1] + (m + [4]) == Trailing();
    TotalAppend(front, [1]);
    ArrayWithin(front + [1], 1, 11, [4]);
    assert front + [1] + m + [4] == Trailing();
    TotalAppend(front + [1], m);
    OneWithin(front + [1] + m, 4, []);
    assert front + [1] + m + [4] + [] == Trailing();
  }

  lemma LeadingIn(b: seq<nat>, c: seq<nat>)
    requires LeadingAt(b)
    ensures LeadingAt(b + c)
  {
    Within([], b, c);
    assert [] + b + c == b + c;
    ArrayIn([], b, c, ENTITY_ID, 12, 2, 3);
  }

  lemma ArrayIn(a: seq<nat>, b: seq<nat>, c: seq<nat>, i: nat, at: nat, width: nat, n: nat)
    requires ArrayAt(b, i, at, width, n)
    ensures ArrayAt(a + b + c, |a| + i, Total(a) + at, width, n)
  {
    Within(a, b, c);
    forall k: nat | k < n
      ensures Placed(a + b + c, |a| + i + k, Total(a) + at + width * k, width)
    {
      assert Placed(b, i + k, at + width * k, width);
    }
  }

  lemma MotionIn(a: seq<nat>, b: seq<nat>, c: seq<nat>)
    requires MotionAt(b, 0, 0)
    ensures MotionAt(a + b + c, |a|, Total(a))
  {
    Within(a, b, c);
    ArrayIn(a, b, c, 0, 0, 4, 3);
    ArrayIn(a, b, c, 3, 12, 8, 3);
    ArrayIn(a, b, c, 6, 36, 4, 3);
  }

  lemma TrailingIn(a: seq<nat>, b: seq<nat>, c: seq<nat>)
    requires TrailingAt(b, 0, 0)
    ensures TrailingAt(a + b + c, |a|, Total(a))
  {
    Within(a, b, c);
    ArrayIn(a, b, c, 1, 1, 1, 15);
    ArrayIn(a, b, c, 16, 16, 4, 3);
    ArrayIn(a, b, c, 19, 28, 4, 3);
    ArrayIn(a, b, c, 23, 41, 1, 11);
  }

  /** Where the fixed fields lie, by name: each with its byte and its width. */
  predicate FixedAt(sizes: seq<nat>) {
    && LeadingAt(sizes)
    && ArrayAt(sizes, VELOCITY, 36, 4, 3)
    && ArrayAt(sizes, LOCATION, 48, 8, 3)
    && ArrayAt(sizes, ORIENTATION, 72, 4, 3)
    && Placed(sizes, APPEARANCE, 84, 4)
    && Placed(sizes, DEAD_RECKONING, 88, 1)
    && ArrayAt(sizes, DEAD_RECKONING_PARAMS, 89, 1, 15)
    && ArrayAt(sizes, ACCELERATION, 104, 4, 3)
    && ArrayAt(sizes, ANGULAR_VELOCITY, 116, 4, 3)
    && Placed(sizes, CHARACTER_SET, 128, 1)
    && ArrayAt(sizes, MARKING, 129, 1, 11)
    && Placed(sizes, CAPABILITIES, 140, 4)
  }

  lemma FixedFrom(a: seq<nat>, b: seq<nat>, c: seq<nat>, d: seq<nat>)
    requires LeadingAt(a) && |a| == 26 && Total(a) == 36
    requires MotionAt(b, 0, 0) && |b| == 10 && Total(b) == 52
    requires TrailingAt(c, 0, 0)
    ensures FixedAt(a + b + c + d)
  {
    var all := a + b + c + d;
    LeadingIn(a, b + c + d);
    assert a + (b + c + d) == all;
    MotionIn(a, b, c + d);
    assert a + b + (c + d) == all;
    TotalAppend(a, b);
    TrailingIn(a + b, c, d);
  }

  lemma ParameterField(fixed: seq<nat>, parameters: nat, j: nat, f: nat)
    requires |fixed| == FIXED_FIELDS && Total(fixed) == 144 && j < parameters && f < |ArtParam()| == 5
    ensures Placed(fixed + Repeat(ArtParam(), parameters), FIXED_FIELDS + 5 * j + f,
                   144 + 16 * j + Offset(ArtParam(), f), ArtParam()[f])
  {
    ParamTotal();
    RepeatOffset(ArtParam(), parameters, j, f);
    OffsetAppend(fixed, Repeat(ArtParam(), parameters), FIXED_FIELDS + (5 * j + f));
  }

  lemma ParameterPlaces(fixed: seq<nat>, parameters: nat, j: nat)
    requires |fixed| == FIXED_FIELDS && Total(fixed) == 144 && j < parameters
    ensures ArtParamAt(fixed + Repeat(ArtParam(), parameters), FIXED_FIELDS + 5 * j, 144 + 16 * j)
  {
    ParamTotal();
    ArtParamPlaces();
    ParameterField(fixed, parameters, j, 0);
    ParameterField(fixed, parameters, j, 1);
    ParameterField(fixed, parameters, j, 2);
    ParameterField(fixed, parameters, j, 3);
    ParameterField(fixed, parameters, j, 4);
  }

  /** The place and width of every field of the Entity State PDU. */
  lemma FieldPlaces(parameters: nat)
    ensures FixedAt(Layout(parameters))
    ensures forall j: nat :: j < parameters ==> ArtParamAt(Layout(parameters), FIXED_FIELDS + 5 * j, 144 + 16 * j)
  {
    LeadingIds();
    LeadingCounts();
    LeadingTypes();
    LeadingPart();
    MotionPlaces();
    MotionPart();
    TrailingFront();
    TrailingBack();
    FixedPart();
    FixedFrom(Leading(), Motion(), Trailing(), Repeat(ArtParam(), parameters));
    forall j: nat | j < parameters
      ensures ArtParamAt(Layout(parameters), FIXED_FIELDS + 5 * j, 144 + 16 * j)
    {
      ParameterPlaces(Fixed(), parameters, j);
    }
  }

  /** Offsets are contiguous and fields disjoint. */
  lemma {:induction false} FieldsAreDisjoint(sizes: seq<nat>, i: nat, j: nat)
    requires i < j <= |sizes|
    ensures Offset(sizes, i) + sizes[i] <= Offset(sizes, j)
    ensures j == i + 1 ==> Offset(sizes, i) + sizes[i] == Offset(sizes, j)
  {
    if i + 1 < j {
      FieldsAreDisjoint(sizes, i, j - 1);
    }
  }

  predicate Holds(sizes: seq<nat>, i: nat, p: nat)
    requires i < |sizes|
  {
    Offset(sizes, i) <= p < Offset(sizes, i) + sizes[i]
  }

  /** Every byte of the layout belongs to exactly one field. */
  lemma {:induction false} OneFieldPerByte(sizes: seq<nat>, p: nat)
    ensures p < Total(sizes) <==> exists i: nat :: i < |sizes| && Holds(sizes, i, p)
    ensures forall i: nat, j: nat ::
              i < |sizes| && j < |sizes| && Holds(sizes, i, p) && Holds(sizes, j, p) ==> i == j
  {
    if p < Total(sizes) {
      var i: nat := |sizes|;
      while p < Offset(sizes, i)
        invariant i <= |sizes|
        invariant i < |sizes| ==> p < Offset(sizes, i + 1)
        decreases i
      {
        i := i - 1;
      }
      assert i < |sizes| && Holds(sizes, i, p);
    }
    forall i: nat, j: nat | i < |sizes| && j < |sizes| && Holds(sizes, i, p) && Holds(sizes, j, p)
      ensures i == j
    {
      if i < j {
        FieldsAreDisjoint(sizes, i, j);
      } else if j < i {
        FieldsAreDisjoint(sizes, j, i);
      }
    }
    forall i: nat | i < |sizes| && Holds(sizes, i, p)
      ensures p < Total(sizes)
    {
      FieldsAreDisjoint(sizes, i, |sizes|);
    }
  }

  // ---------------------------------------------------------------------------
  // Reading and writing fields

  function Reverse(s: seq<byte>): (r: seq<byte>)
    ensures |r| == |s|
  {
    seq(|s|, i requires 0 <= i < |s| => s[|s| - 1 - i])
  }

  lemma ReverseTwice(s: seq<byte>)
    ensures Reverse(Reverse(s)) == s
  {
  }

  function Store(buffer: seq<byte>, at: nat, bytes: seq<byte>): (r: seq<byte>)
    requires at + |bytes| <= |buffer|
    ensures |r| == |buffer|
  {
    seq(|buffer|, k requires 0 <= k < |buffer| =>
      if at <= k < at + |bytes| then bytes[k - at] else buffer[k])
  }

  predicate Fits(sizes: seq<nat>, buffer: seq<byte>) {
    Total(sizes) <= |buffer|
  }

  lemma FieldFits(sizes: seq<nat>, buffer: seq<byte>, i: nat)
    requires Fits(sizes, buffer) && i < |sizes|
    ensures Offset(sizes, i) + sizes[i] <= |buffer|
  {
    FieldsAreDisjoint(sizes, i, |sizes|);
  }

  /** The stored bytes of a field. */
  function Stored(buffer: seq<byte>, sizes: seq<nat>, i: nat): (bytes: seq<byte>)
    requires Fits(sizes, buffer) && i < |sizes|
    ensures |bytes| == sizes[i]
  {
    FieldFits(sizes, buffer, i);
    buffer[Offset(sizes, i)..Offset(sizes, i) + sizes[i]]
  }

  function ReadField(buffer: seq<byte>, sizes: seq<nat>, i: nat): (host: seq<byte>)
    requires Fits(sizes, buffer) && i < |sizes|
    ensures |host| == sizes[i]
  {
    Reverse(Stored(buffer, sizes, i))
  }

  datatype Write = Write(field: nat, host: seq<byte>)

  predicate Legal(sizes: seq<nat>, w: Write) {
    w.field < |sizes| && |w.host| == sizes[w.field]
  }

  function WriteField(buffer: seq<byte>, sizes: seq<nat>, w: Write): (r: seq<byte>)
    requires Fits(sizes, buffer) && Legal(sizes, w)
    ensures |r| == |buffer|
  {
    FieldFits(sizes, buffer, w.field);
    Store(buffer, Offset(sizes, w.field), Reverse(w.host))
  }

  lemma StoreInside(buffer: seq<byte>, at: nat, bytes: seq<byte>)
    requires at + |bytes| <= |buffer|
    ensures Store(buffer, at, bytes)[at..at + |bytes|] == bytes
  {
  }

  lemma StoreOutside(buffer: seq<byte>, at: nat, bytes: seq<byte>, from: nat, len: nat)
    requires at + |bytes| <= |buffer| && from + len <= |buffer|
    requires from + len <= at || at + |bytes| <= from
    ensures Store(buffer, at, bytes)[from..from + len] == buffer[from..from + len]
  {
  }

  lemma StoredAfterWrite(buffer: seq<byte>, sizes: seq<nat>, w: Write, i: nat)
    requires Fits(sizes, buffer) && Legal(sizes, w) && i < |sizes|
    ensures Stored(WriteField(buffer, sizes, w), sizes, i)
         == if i == w.field then Reverse(w.host) else Stored(buffer, sizes, i)
  {
    FieldFits(sizes, buffer, i);
    FieldFits(sizes, buffer, w.field);
    if i == w.field {
      StoreInside(buffer, Offset(sizes, i), Reverse(w.host));
    } else {
      if i < w.field {
        FieldsAreDisjoint(sizes, i, w.field);
      } else {
        FieldsAreDisjoint(sizes, w.field, i);
      }
      StoreOutside(buffer, Offset(sizes, w.field), Reverse(w.host), Offset(sizes, i), sizes[i]);
    }
  }

  /** A write is read back, and no other field notices it. */
  lemma ReadAfterWrite(buffer: seq<byte>, sizes: seq<nat>, w: Write, i: nat)
    requires Fits(sizes, buffer) && Legal(sizes, w) && i < |sizes|
    ensures ReadField(WriteField(buffer, sizes, w), sizes, i)
         == if i == w.field then w.host else ReadField(buffer, sizes, i)
  {
    StoredAfterWrite(buffer, sizes, w, i);
    ReverseTwice(w.host);
  }

  /** On the wire: a field placed at a byte has its host bytes there, reversed, and nothing
      else changes. */
  lemma WrittenAt(buffer: seq<byte>, sizes: seq<nat>, w: Write, at: nat, width: nat)
    requires Fits(sizes, buffer) && Placed(sizes, w.field, at, width) && |w.host| == width
    ensures at + width <= |buffer|
    ensures var r := WriteField(buffer, sizes, w);
            && r[at..at + width] == Reverse(w.host)
            && r[..at] == buffer[..at] && r[at + width..] == buffer[at + width..]
  {
    FieldFits(sizes, buffer, w.field);
    StoreInside(buffer, at, Reverse(w.host));
  }

  lemma StoredSame(a: seq<byte>, b: seq<byte>, sizes: seq<nat>, i: nat)
    requires Fits(sizes, a) && Fits(sizes, b) && i < |sizes|
    requires forall p :: Offset(sizes, i) <= p < Offset(sizes, i) + sizes[i] && p < |a| && p < |b| ==> a[p] == b[p]
    ensures Stored(a, sizes, i) == Stored(b, sizes, i)
  {
    FieldFits(sizes, a, i);
    FieldFits(sizes, b, i);
  }

  predicate AllLegal(sizes: seq<nat>, ws: seq<Write>) {
    forall k :: 0 <= k < |ws| ==> Legal(sizes, ws[k])
  }

  function WriteAll(buffer: seq<byte>, sizes: seq<nat>, ws: seq<Write>): (r: seq<byte>)
    requires Fits(sizes, buffer) && AllLegal(sizes, ws)
    ensures |r| == |buffer|
    decreases |ws|
  {
    if ws == [] then buffer else WriteAll(WriteField(buffer, sizes, ws[0]), sizes, ws[1..])
  }

  /** Write k is the last one that assigns the field. */
  predicate IsLast(ws: seq<Write>, field: nat, k: nat) {
    && k < |ws| && ws[k].field == field
    && forall j :: k < j < |ws| ==> ws[j].field != field
  }

  /** Round trip: after any sequence of assignments a field reads as its last assigned
      value, and as before if none of them assigned it. */
  lemma {:induction false} ReadsAreLastWrites(buffer: seq<byte>, sizes: seq<nat>, ws: seq<Write>, i: nat)
    requires Fits(sizes, buffer) && AllLegal(sizes, ws) && i < |sizes|
    ensures forall k: nat :: IsLast(ws, i, k) ==> ReadField(WriteAll(buffer, sizes, ws), sizes, i) == ws[k].host
    ensures (forall k :: 0 <= k < |ws| ==> ws[k].field != i)
            ==> ReadField(WriteAll(buffer, sizes, ws), sizes, i) == ReadField(buffer, sizes, i)
    decreases |ws|
  {
    if ws != [] {
      ReadsAreLastWrites(WriteField(buffer, sizes, ws[0]), sizes, ws[1..], i);
      ReadAfterWrite(buffer, sizes, ws[0], i);
      forall k: nat | IsLast(ws, i, k)
        ensures ReadField(WriteAll(buffer, sizes, ws), sizes, i) == ws[k].host
      {
        if k == 0 {
          assert forall j :: 0 <= j < |ws[1..]| ==> ws[1..][j] == ws[j + 1];
        } else {
          assert IsLast(ws[1..], i, k - 1);
        }
      }
    }
  }

  // ---------------------------------------------------------------------------
  // Numbers: what the reversal is for

  function Little(host: seq<byte>): nat {
    if host == [] then 0 else host[0] as nat + 256 * Little(host[1..])
  }

  /** The network reading of the stored bytes: most significant byte first. */
  function Big(wire: seq<byte>): nat {
    if wire == [] then 0 else Big(wire[..|wire| - 1]) * 256 + wire[|wire| - 1] as nat
  }

  function Pow256(n: nat): (p: nat)
    ensures p > 0
  {
    if n == 0 then 1 else 256 * Pow256(n - 1)
  }

  function Host(v: nat, n: nat): (host: seq<byte>)
    ensures |host| == n
  {
    if n == 0 then [] else [(v % 256) as byte] + Host(v / 256, n - 1)
  }

  lemma {:induction false} NetworkOrder(host: seq<byte>)
    ensures Big(Reverse(host)) == Little(host)
  {
    if host != [] {
      NetworkOrder(host[1..]);
      assert Reverse(host)[..|host| - 1] == Reverse(host[1..]);
    }
  }

  lemma {:induction false} HostRoundTrip(v: nat, n: nat)
    ensures Little(Host(v, n)) == v % Pow256(n)
    ensures v < Pow256(n) ==> Little(Host(v, n)) == v
  {
    if n > 0 {
      HostRoundTrip(v / 256, n - 1);
      var p := Pow256(n - 1);
      assert Host(v, n)[1..] == Host(v / 256, n - 1);
      SplitMod(v, p);
    }
    if v < Pow256(n) {
      SmallMod(v, Pow256(n));
    }
  }

  lemma SmallMod(v: nat, m: nat)
    requires v < m
    ensures v % m == v
  {
  }

  lemma SplitMod(v: nat, p: nat)
    requires p > 0
    ensures v % (256 * p) == v % 256 + 256 * ((v / 256) % p)
  {
    var q, r := (v / 256) / p, (v / 256) % p;
    var low := v % 256 + 256 * r;
    assert v == (256 * p) * q + low by {
      assert v / 256 == p * q + r;
      assert v == 256 * (v / 256) + v % 256;
      assert 256 * (p * q) == (256 * p) * q;
    }
    assert 0 <= low < 256 * p;
    DivModUnique(v, 256 * p, q, low);
  }

  lemma DivModUnique(v: nat, m: nat, q: nat, r: nat)
    requires m > 0 && v == m * q + r && r < m
    ensures v % m == r
  {
    var d := v / m - q;
    assert m * d == r - v % m;
    assert d >= 1 ==> m * d >= m;
    assert d <= -1 ==> m * -d >= m;
  }

  /** An assignment of a number stores it most significant byte first, reduced to the
      width of the field, and reads back the same. */
  lemma NumberRoundTrip(buffer: seq<byte>, sizes: seq<nat>, i: nat, v: nat)
    requires Fits(sizes, buffer) && i < |sizes|
    ensures Offset(sizes, i) + sizes[i] <= |buffer|
    ensures var r := WriteField(buffer, sizes, Write(i, Host(v, sizes[i])));
            && Big(r[Offset(sizes, i)..Offset(sizes, i) + sizes[i]]) == v % Pow256(sizes[i])
            && Little(ReadField(r, sizes, i)) == v % Pow256(sizes[i])
  {
    var w := Write(i, Host(v, sizes[i]));
    var r := WriteField(buffer, sizes, w);
    FieldFits(sizes, buffer, i);
    ReadAfterWrite(buffer, sizes, w, i);
    HostRoundTrip(v, sizes[i]);
    var wire := r[Offset(sizes, i)..Offset(sizes, i) + sizes[i]];
    assert wire == Reverse(w.host);
    NetworkOrder(w.host);
  }

  // ---------------------------------------------------------------------------
  // The announced size and what a transfer carries

  /** A buffer holding an Entity State PDU. */
  ghost predicate Holding(buffer: seq<byte>, sizes: seq<nat>, parameters: nat) {
    |buffer| == CAPACITY && EntityLayout(sizes, parameters) && Fits(sizes, buffer)
  }

  function Count(buffer: seq<byte>, sizes: seq<nat>): nat
    requires Fits(sizes, buffer) && NUM_PARAMETERS < |sizes| && sizes[NUM_PARAMETERS] == 1
  {
    ReadField(buffer, sizes, NUM_PARAMETERS)[0] as nat
  }

  function Size(buffer: seq<byte>, sizes: seq<nat>): nat
    requires Fits(sizes, buffer) && NUM_PARAMETERS < |sizes| && sizes[NUM_PARAMETERS] == 1
  {
    144 + Count(buffer, sizes) * 16
  }

  /** The size is determined by the last assignment of the parameter count alone; it
      covers only laid-out fields iff that count is at most the number laid out. */
  lemma SizeFollowsCount(buffer: seq<byte>, sizes: seq<nat>, parameters: nat, ws: seq<Write>, k: nat)
    requires Holding(buffer, sizes, parameters)
    requires AllLegal(sizes, ws) && IsLast(ws, NUM_PARAMETERS, k)
    ensures |ws[k].host| == 1
    ensures var size, n := Size(WriteAll(buffer, sizes, ws), sizes), ws[k].host[0] as nat;
            && size == 144 + 16 * n
            && (size <= Total(sizes) <==> n <= parameters)
            && (size <= CAPACITY <==> n <= 84)
  {
    ReadsAreLastWrites(buffer, sizes, ws, NUM_PARAMETERS);
  }

  function Reload(buffer: seq<byte>, bytes: seq<byte>): (r: seq<byte>)
    requires |bytes| <= |buffer|
    ensures |r| == |buffer|
  {
    bytes + buffer[|bytes|..]
  }

  /** Sending the announced bytes of one PDU into another carries every fixed field and
      exactly the announced parameters; the others keep the receiver's values. */
  lemma TransferCarriesAnnounced(
    from: seq<byte>, into: seq<byte>, sizes: seq<nat>, parameters: nat, i: nat)
    requires Holding(from, sizes, parameters) && Holding(into, sizes, parameters)
    requires Size(from, sizes) <= CAPACITY && i < |sizes|
    ensures ReadField(Reload(into, from[..Size(from, sizes)]), sizes, i)
         == ReadField(if i < FIXED_FIELDS + 5 * Count(from, sizes) then from else into, sizes, i)
  {
    var n := Count(from, sizes);
    var r := Reload(into, from[..Size(from, sizes)]);
    FieldFits(sizes, from, i);
    var carried := if n <= parameters then n else parameters;
    var edge := FIXED_FIELDS + 5 * carried;
    assert ParameterStarts(sizes, carried);
    if i < edge {
      FieldsAreDisjoint(sizes, i, edge);
      StoredSame(r, from, sizes, i);
    } else {
      if edge < i {
        FieldsAreDisjoint(sizes, edge, i);
      }
      StoredSame(r, into, sizes, i);
    }
  }

  // ---------------------------------------------------------------------------
  // The packer

  class Packed {
    const data: array<byte>
    const sizes: seq<nat>
    var dataEnd: nat
    /** Where each field was placed by its constructor. */
    var fields: seq<nat>

    ghost predicate Valid()
      reads this
    {
      && data.Length == CAPACITY
      && dataEnd == Total(sizes) <= CAPACITY
      && |fields| == |sizes|
      && forall i :: 0 <= i < |fields| ==> fields[i] == Offset(sizes, i)
    }

    constructor (sizes: seq<nat>)
      requires Total(sizes) <= CAPACITY
      ensures Valid() && fresh(data) && this.sizes == sizes
    {
      data := new byte[CAPACITY];
      this.sizes := sizes;
      dataEnd := 0;
      fields := [];
      new;
      while |fields| < |sizes|
        invariant |fields| <= |sizes|
        invariant dataEnd == Offset(sizes, |fields|)
        invariant forall i :: 0 <= i < |fields| ==> fields[i] == Offset(sizes, i)
      {
        Allocate(sizes[|fields|]);
      }
    }

    /** The constructor of one field claims the next bytes. */
    method Allocate(size: nat)
      modifies this
      ensures fields == old(fields) + [old(dataEnd)]
      ensures dataEnd == old(dataEnd) + size
    {
      fields := fields + [dataEnd];
      dataEnd := dataEnd + size;
    }

    method Assign(i: nat, host: seq<byte>)
      requires Valid() && Legal(sizes, Write(i, host))
      modifies data
      ensures Valid()
      ensures Fits(sizes, old(data[..]))
      ensures data[..] == WriteField(old(data[..]), sizes, Write(i, host))
    {
      ghost var before := data[..];
      FieldFits(sizes, before, i);
      var at, n := fields[i], |host|;
      var k := 0;
      while k < n
        invariant k <= n
        invariant forall j :: 0 <= j < CAPACITY ==>
          data[j] == if at <= j < at + k then host[n - 1 - (j - at)] else before[j]
      {
        data[at + k] := host[n - 1 - k];
        k := k + 1;
      }
    }

    method Value(i: nat) returns (host: seq<byte>)
      requires Valid() && i < |sizes|
      ensures Fits(sizes, data[..])
      ensures host == ReadField(data[..], sizes, i)
    {
      FieldFits(sizes, data[..], i);
      var at, n := fields[i], sizes[i];
      host := [];
      while |host| < n
        invariant |host| <= n
        invariant forall j :: 0 <= j < |host| ==> host[j] == data[at + n - 1 - j]
      {
        host := host + [data[at + n - 1 - |host|]];
      }
    }

    method ReloadFrom(bytes: seq<byte>)
      requires Valid() && |bytes| <= CAPACITY
      modifies data
      ensures Valid() && data[..] == Reload(old(data[..]), bytes)
    {
      ghost var before := data[..];
      var k := 0;
      while k < |bytes|
        invariant k <= |bytes|
        invariant forall j :: 0 <= j < CAPACITY ==> data[j] == if j < k then bytes[j] else before[j]
      {
        data[k] := bytes[k];
        k := k + 1;
      }
    }

    /** The size of an Entity State PDU, from the stored parameter count. */
    method Length(ghost parameters: nat) returns (n: nat)
      requires Valid() && EntityLayout(sizes, parameters)
      ensures Holding(data[..], sizes, parameters) && n == Size(data[..], sizes)
    {
      var count := Value(NUM_PARAMETERS);
      n := 144 + count[0] as nat * 16;
    }
  }

  /** The Entity State constructor: lays the fields out, sets the type and no parameters. */
  method NewEntityState() returns (pdu: Packed)
    ensures fresh(pdu) && pdu.Valid() && fresh(pdu.data) && pdu.sizes == Layout(PARAMETERS)
    ensures Holding(pdu.data[..], pdu.sizes, PARAMETERS)
    ensures ReadField(pdu.data[..], pdu.sizes, PDU_TYPE) == [1]
    ensures Size(pdu.data[..], pdu.sizes) == 144
  {
    var p := PARAMETERS;
    LayoutSizes(p);
    pdu := new Packed(Layout(p));
    Initialise(pdu, p);
  }

  method Initialise(pdu: Packed, ghost parameters: nat)
    requires pdu.Valid() && EntityLayout(pdu.sizes, parameters)
    modifies pdu.data
    ensures pdu.Valid() && Holding(pdu.data[..], pdu.sizes, parameters)
    ensures ReadField(pdu.data[..], pdu.sizes, PDU_TYPE) == [1]
    ensures Size(pdu.data[..], pdu.sizes) == 144
  {
    pdu.Assign(PDU_TYPE, [1]);
    ghost var before := pdu.data[..];
    pdu.Assign(NUM_PARAMETERS, [0]);
    ReadAfterWrite(before, pdu.sizes, Write(NUM_PARAMETERS, [0]), PDU_TYPE);
    ReadAfterWrite(before, pdu.sizes, Write(NUM_PARAMETERS, [0]), NUM_PARAMETERS);
  }
}
