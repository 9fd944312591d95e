/**
 * How the mesh comes about. Annealing a dispatcher opens a connection to every higher
 * dispatcher it has no D2D entry for; when a connection opens, each end sends a HELLO,
 * and a received HELLO is bound into the D2D table of the receiving end. Connections may
 * be duplicated by repeated anneals, may be slow, and may fail: the connecting end keeps
 * its handler and its entry and connects again, the accepting end destroys its handler
 * and unbinds by handle number, and the two notice the failure independently.
 */
module Formation {
  import Mesh
  import Identity

  type Node = nat

  /** The dispatcher nodes and the peer id of the dispatcher on each. */
  datatype Site = Site(nodes: set<Node>, peer: Node -> nat)

  /** A connection asked for by lo, that is, its handler there; serial tells duplicates apart. */
  datatype Conn = Conn(lo: Node, hi: Node, serial: nat)

  /** One opening of a connection, with the handle numbers of its two sockets. */
  datatype Link = Link(conn: Conn, opening: nat, loHandle: nat, hiHandle: nat)

  /** The handler objects: one for the life of a connection at its low end, a new one for
      every opening at its high end. */
  datatype Handler = Active(conn: Conn) | Accepted(link: Link)

  /** A HELLO under way on an open link towards one of its ends. */
  datatype Hello = Hello(link: Link, to: Node)

  /** A D2D entry of dispatcher `at`: the four keys, and the link whose HELLO made it. */
  datatype Entry = Entry(at: Node, chid: nat, peer: nat, node: Node, ch: Handler, via: Link)

  datatype Grid = Grid(
    annealed: set<Node>,
    conns: set<Conn>,        // all connections ever asked for
    requested: set<Conn>,    // being established, or re-established after a failure
    low: set<Link>,          // links the connecting end has open
    high: set<Link>,         // links the accepting end has open
    hellos: set<Hello>,
    d2d: set<Entry>,
    next: nat)

  datatype Action =
    | Anneal(n: Node)
    | Open(c: Conn, loHandle: nat, hiHandle: nat)
    | HelloArrives(h: Hello)
    | LoseLow(l: Link)
    | LoseHigh(l: Link)

  const START := Grid({}, {}, {}, {}, {}, {}, {}, 0)

  predicate BoundTo(s: Grid, at: Node, node: Node) {
    exists e :: e in s.d2d && e.at == at && e.node == node
  }

  function Far(c: Conn, n: Node): Node {
    if n == c.lo then c.hi else c.lo
  }

  function Handle(l: Link, n: Node): nat {
    if n == l.conn.lo then l.loHandle else l.hiHandle
  }

  /** The handle numbers in use at a dispatcher. */
  function InUse(s: Grid, n: Node): set<nat> {
    (set l <- s.low | l.conn.lo == n :: l.loHandle) + (set l <- s.high | l.conn.hi == n :: l.hiHandle)
  }

  predicate Enabled(site: Site, s: Grid, a: Action) {
    match a
    case Anneal(n) => n in site.nodes
    case Open(c, lh, hh) => c in s.requested && lh !in InUse(s, c.lo) && hh !in InUse(s, c.hi)
    case HelloArrives(h) => h in s.hellos
    case LoseLow(l) => l in s.low
    case LoseHigh(l) => l in s.high
  }

  /** The connections initiate_all_d2d_connections asks for at n. */
  function Initiated(nodes: set<Node>, s: Grid, n: Node): set<Conn> {
    set h <- nodes | h > n && !BoundTo(s, n, h) :: Conn(n, h, s.next)
  }

  function EntryOf(site: Site, h: Hello): Entry {
    var c := h.link.conn;
    Entry(h.to, Handle(h.link, h.to), site.peer(Far(c, h.to)), Far(c, h.to),
          if h.to == c.lo then Active(c) else Accepted(h.link), h.link)
  }

  predicate Clash(x: Entry, e: Entry) {
    x.at == e.at && (x.chid == e.chid || x.peer == e.peer || x.node == e.node || x.ch == e.ch)
  }

  predicate Refused(d2d: set<Entry>, e: Entry) {
    exists x :: x in d2d && Clash(x, e)
  }

  /** bind: refused if any of the four keys is taken; the caller ignores the result. */
  function Bind(d2d: set<Entry>, e: Entry): set<Entry> {
    if Refused(d2d, e) then d2d else d2d + {e}
  }

  function UnbindHandle(d2d: set<Entry>, at: Node, handle: nat): set<Entry> {
    set e <- d2d | !(e.at == at && e.chid == handle)
  }

  function Opened(s: Grid, l: Link): Grid {
    s.(requested := s.requested - {l.conn}, low := s.low + {l}, high := s.high + {l},
       hellos := s.hellos + {Hello(l, l.conn.lo), Hello(l, l.conn.hi)}, next := s.next + 1)
  }

  function Step(site: Site, s: Grid, a: Action): Grid
    requires Enabled(site, s, a)
  {
    match a
    case Anneal(n) =>
      var asked := Initiated(site.nodes, s, n);
      s.(annealed := s.annealed + {n}, conns := s.conns + asked, requested := s.requested + asked, next := s.next + 1)
    case Open(c, lh, hh) => Opened(s, Link(c, s.next, lh, hh))
    case HelloArrives(h) =>
      s.(hellos := s.hellos - {h}, d2d := Bind(s.d2d, EntryOf(site, h)))
    case LoseLow(l) =>
      s.(low := s.low - {l}, requested := s.requested + {l.conn}, hellos := s.hellos - {Hello(l, l.conn.lo)})
    case LoseHigh(l) =>
      s.(high := s.high - {l}, hellos := s.hellos - {Hello(l, l.conn.hi)},
         d2d := UnbindHandle(s.d2d, l.conn.hi, l.hiHandle))
  }

  predicate Runnable(site: Site, s: Grid, run: seq<Action>)
    decreases |run|, 0
  {
    run == [] || (Runnable(site, s, run[..|run| - 1]) && Enabled(site, Run(site, s, run[..|run| - 1]), run[|run| - 1]))
  }

  function Run(site: Site, s: Grid, run: seq<Action>): Grid
    requires Runnable(site, s, run)
    decreases |run|, 1
  {
    if run == [] then s else Step(site, Run(site, s, run[..|run| - 1]), run[|run| - 1])
  }

  // ---------------------------------------------------------------------------
  // What holds in every run

  predicate UpHill(site: Site, c: Conn) {
    c.lo in site.nodes && c.hi in site.nodes && c.lo < c.hi
  }

  predicate Ends(l: Link, n: Node) {
    n == l.conn.lo || n == l.conn.hi
  }

  predicate ShapeInv(site: Site, s: Grid) {
    && (forall c :: c in s.conns ==> UpHill(site, c))
    && s.requested <= s.conns
    && (forall l :: l in s.low + s.high ==> l.conn in s.conns && l.opening < s.next)
    && (forall h :: h in s.hellos ==> Ends(h.link, h.to) && EndUp(s, h.link, h.to))
    && (forall e :: e in s.d2d ==> Ends(e.via, e.at) && e.via.conn in s.conns && e == EntryOf(site, Hello(e.via, e.at)))
  }

  /** The end of link l at dispatcher n is open. */
  predicate EndUp(s: Grid, l: Link, n: Node) {
    (n == l.conn.lo && l in s.low) || (n == l.conn.hi && l in s.high)
  }

  /** No two entries of a dispatcher share any key. */
  predicate UniqueInv(s: Grid) {
    forall e, e' :: e in s.d2d && e' in s.d2d && Clash(e, e') ==> e == e'
  }

  /** No two open sockets of a dispatcher share a handle number. */
  predicate HandleInv(s: Grid) {
    && (forall l, l' :: l in s.low && l' in s.low && l.conn.lo == l'.conn.lo && l.loHandle == l'.loHandle ==> l == l')
    && (forall l, l' :: l in s.high && l' in s.high && l.conn.hi == l'.conn.hi && l.hiHandle == l'.hiHandle ==> l == l')
    && (forall l, l' :: l in s.low && l' in s.high && l.conn.lo == l'.conn.hi ==> l.loHandle != l'.hiHandle)
  }

  predicate Joins(c: Conn, a: Node, b: Node) {
    (c.lo == a && c.hi == b) || (c.lo == b && c.hi == a)
  }

  predicate Touched(s: Grid, a: Node, b: Node) {
    exists c :: c in s.conns && Joins(c, a, b)
  }

  ghost predicate AnnealedInv(site: Site, s: Grid) {
    forall a: Node, b: Node :: a in s.annealed && b in site.nodes && a < b ==> Touched(s, a, b)
  }

  ghost predicate Inv(site: Site, s: Grid) {
    ShapeInv(site, s) && UniqueInv(s) && HandleInv(s) && AnnealedInv(site, s)
  }

  lemma StepKeepsShape(site: Site, s: Grid, a: Action)
    requires ShapeInv(site, s) && Enabled(site, s, a)
    ensures ShapeInv(site, Step(site, s, a))
  {
  }

  lemma StepKeepsUnique(site: Site, s: Grid, a: Action)
    requires UniqueInv(s) && Enabled(site, s, a)
    ensures UniqueInv(Step(site, s, a))
  {
  }

  lemma HandleIsFree(s: Grid, n: Node, h: nat)
    requires h !in InUse(s, n)
    ensures forall l :: l in s.low && l.conn.lo == n ==> l.loHandle != h
    ensures forall l :: l in s.high && l.conn.hi == n ==> l.hiHandle != h
  {
  }

  lemma StepKeepsHandles(site: Site, s: Grid, a: Action)
    requires ShapeInv(site, s) && HandleInv(s) && Enabled(site, s, a)
    ensures HandleInv(Step(site, s, a))
  {
    if a.Open? {
      OpenKeepsHandles(s, Link(a.c, s.next, a.loHandle, a.hiHandle));
    }
  }

  lemma OpenKeepsHandles(s: Grid, l: Link)
    requires HandleInv(s) && l.conn.lo != l.conn.hi
    requires l.loHandle !in InUse(s, l.conn.lo) && l.hiHandle !in InUse(s, l.conn.hi)
    ensures HandleInv(Opened(s, l))
  {
    HandleIsFree(s, l.conn.lo, l.loHandle);
    HandleIsFree(s, l.conn.hi, l.hiHandle);
  }

  lemma StepKeepsAnnealed(site: Site, s: Grid, a: Action)
    requires ShapeInv(site, s) && AnnealedInv(site, s) && Enabled(site, s, a)
    ensures AnnealedInv(site, Step(site, s, a))
  {
    var s' := Step(site, s, a);
    forall x: Node, y: Node | x in s'.annealed && y in site.nodes && x < y
      ensures Touched(s', x, y)
    {
      if x in s.annealed {
        var c :| c in s.conns && Joins(c, x, y);
        assert c in s'.conns;
      } else if BoundTo(s, x, y) {
        var e :| e in s.d2d && e.at == x && e.node == y;
        assert e.via.conn in s'.conns && Joins(e.via.conn, x, y);
      } else {
        var c := Conn(x, y, s.next);
        assert c in Initiated(site.nodes, s, x);
        assert c in s'.conns && Joins(c, x, y);
      }
    }
  }

  lemma StepKeepsInv(site: Site, s: Grid, a: Action)
    requires Inv(site, s) && Enabled(site, s, a)
    ensures Inv(site, Step(site, s, a))
  {
    StepKeepsShape(site, s, a);
    StepKeepsUnique(site, s, a);
    StepKeepsHandles(site, s, a);
    StepKeepsAnnealed(site, s, a);
  }

  lemma {:induction false} RunKeepsInv(site: Site, run: seq<Action>)
    requires Runnable(site, START, run)
    ensures Inv(site, Run(site, START, run))
    decreases |run|
  {
    if run != [] {
      RunKeepsInv(site, run[..|run| - 1]);
      StepKeepsInv(site, Run(site, START, run[..|run| - 1]), run[|run| - 1]);
    }
  }

  /** In any order of anneals, openings, HELLOs and failures noticed at either end:
      connections go from lower to higher dispatchers, no two entries of a table share a
      handle number, a peer, a node or a handler, and no dispatcher has an entry for itself. */
  lemma TablesStaySound(site: Site, run: seq<Action>)
    requires Runnable(site, START, run)
    ensures var s := Run(site, START, run);
            && (forall c :: c in s.conns ==> c.lo < c.hi)
            && (forall e, e' :: e in s.d2d && e' in s.d2d && Clash(e, e') ==> e == e')
            && (forall e :: e in s.d2d ==> e.at != e.node)
  {
    RunKeepsInv(site, run);
  }

  // ---------------------------------------------------------------------------
  // Which pairs end up unbound

  /** Something is under way that will send a a HELLO of b: a connection being established,
      the HELLO itself, or a link that only the connecting end still believes in. */
  predicate Pending(s: Grid, a: Node, b: Node) {
    || (exists c :: c in s.requested && Joins(c, a, b))
    || (exists h :: h in s.hellos && h.to == a && Joins(h.link.conn, a, b))
    || (exists l :: l in s.low && l !in s.high && Joins(l.conn, a, b))
  }

  /** The two are connected, a has no entry for b, and nothing is under way to change that. */
  predicate Missing(s: Grid, a: Node, b: Node) {
    Touched(s, a, b) && !BoundTo(s, a, b) && !Pending(s, a, b)
  }

  /** Nothing but what `except` names is under way for the pair. */
  predicate OnlyPending(s: Grid, a: Node, b: Node, except: Hello) {
    && (forall c :: c in s.requested ==> !Joins(c, a, b))
    && (forall h :: h in s.hellos && h.to == a && Joins(h.link.conn, a, b) ==> h == except)
    && (forall l :: l in s.low && l !in s.high ==> !Joins(l.conn, a, b))
  }

  /** The step uses up the last chance of b's entry at a: b's HELLO is refused because
      another node's entry holds its handle number (or its peer id); or a handler is
      destroyed at a, and what it takes with it, the entries under its handle number and
      its own pending HELLO, is all there was for b. */
  predicate Wastes(site: Site, s: Grid, act: Action, a: Node, b: Node) {
    match act
    case HelloArrives(h) =>
      && h.to == a && Joins(h.link.conn, a, b) && !BoundTo(s, a, b)
      && Refused(s.d2d, EntryOf(site, h)) && OnlyPending(s, a, b, h)
    case LoseHigh(l) =>
      && l.conn.hi == a && !(l in s.low && Joins(l.conn, a, b))
      && (forall e :: e in s.d2d && e.at == a && e.node == b ==> e.chid == l.hiHandle)
      && OnlyPending(s, a, b, Hello(l, a))
      && (BoundTo(s, a, b) || (Hello(l, a) in s.hellos && Joins(l.conn, a, b)))
    case _ => false
  }

  /** The step sets something under way for the pair: one of its live links fails, or the
      lower of the two is annealed while it lacks the entry. */
  predicate Heals(site: Site, s: Grid, act: Action, a: Node, b: Node) {
    match act
    case LoseLow(l) => Joins(l.conn, a, b)
    case LoseHigh(l) => l in s.low && Joins(l.conn, a, b)
    case Anneal(n) =>
      (n == a && a < b && b in site.nodes && !BoundTo(s, a, b)) || (n == b && b < a && a in site.nodes && !BoundTo(s, b, a))
    case _ => false
  }

  lemma AnnealMissing(site: Site, s: Grid, n: Node, a: Node, b: Node)
    requires ShapeInv(site, s) && n in site.nodes
    ensures Missing(Step(site, s, Anneal(n)), a, b) <==> Missing(s, a, b) && !Heals(site, s, Anneal(n), a, b)
  {
    var s' := Step(site, s, Anneal(n));
    assert BoundTo(s', a, b) == BoundTo(s, a, b);
    if Heals(site, s, Anneal(n), a, b) {
      var c := Conn(n, if n == a then b else a, s.next);
      assert c in Initiated(site.nodes, s, n) && c in s'.requested && Joins(c, a, b);
    } else if Pending(s, a, b) {
      assert Pending(s', a, b);
    }
  }

  lemma OpenMissing(site: Site, s: Grid, act: Action, a: Node, b: Node)
    requires ShapeInv(site, s) && act.Open? && Enabled(site, s, act)
    ensures Missing(Step(site, s, act), a, b) <==> Missing(s, a, b)
  {
    var s', l := Step(site, s, act), Link(act.c, s.next, act.loHandle, act.hiHandle);
    assert BoundTo(s', a, b) == BoundTo(s, a, b) && Touched(s', a, b) == Touched(s, a, b);
    if Joins(act.c, a, b) {
      assert Hello(l, a) in s'.hellos && Pending(s', a, b) && Pending(s, a, b);
    } else {
      assert Pending(s', a, b) == Pending(s, a, b);
    }
  }

  lemma HelloMissing(site: Site, s: Grid, h: Hello, a: Node, b: Node)
    requires ShapeInv(site, s) && h in s.hellos
    ensures var act := HelloArrives(h);
            Missing(Step(site, s, act), a, b) <==> Missing(s, a, b) || Wastes(site, s, act, a, b)
  {
    var s', e := Step(site, s, HelloArrives(h)), EntryOf(site, h);
    assert Touched(s', a, b) == Touched(s, a, b);
    if h.to == a && Joins(h.link.conn, a, b) {
      assert Touched(s, a, b) && Pending(s, a, b);
      if Refused(s.d2d, e) {
        assert BoundTo(s', a, b) == BoundTo(s, a, b);
        assert Pending(s', a, b) <==> !OnlyPending(s, a, b, h);
      } else {
        assert e in s'.d2d && BoundTo(s', a, b);
      }
    } else {
      assert Pending(s', a, b) == Pending(s, a, b);
      assert BoundTo(s', a, b) == BoundTo(s, a, b);
    }
  }

  lemma LoseLowMissing(site: Site, s: Grid, l: Link, a: Node, b: Node)
    requires ShapeInv(site, s) && l in s.low
    ensures Missing(Step(site, s, LoseLow(l)), a, b) <==> Missing(s, a, b) && !Heals(site, s, LoseLow(l), a, b)
  {
    var s' := Step(site, s, LoseLow(l));
    assert Touched(s', a, b) == Touched(s, a, b) && BoundTo(s', a, b) == BoundTo(s, a, b);
    if Joins(l.conn, a, b) {
      assert l.conn in s'.requested && Pending(s', a, b);
    } else {
      assert Pending(s', a, b) == Pending(s, a, b);
    }
  }

  lemma LoseHighMissing(site: Site, s: Grid, l: Link, a: Node, b: Node)
    requires ShapeInv(site, s) && l in s.high
    ensures var act := LoseHigh(l);
            Missing(Step(site, s, act), a, b) <==>
              (Missing(s, a, b) && !Heals(site, s, act, a, b)) || Wastes(site, s, act, a, b)
  {
    var s' := Step(site, s, LoseHigh(l));
    assert Touched(s', a, b) == Touched(s, a, b);
    if l in s.low && Joins(l.conn, a, b) {
      assert l !in s'.high && Pending(s', a, b);
    } else if l.conn.hi == a {
      LoseHighHere(site, s, l, a, b);
    } else {
      assert Pending(s', a, b) == Pending(s, a, b);
      assert BoundTo(s', a, b) == BoundTo(s, a, b);
    }
  }

  lemma LoseHighHere(site: Site, s: Grid, l: Link, a: Node, b: Node)
    requires ShapeInv(site, s) && l in s.high && l.conn.hi == a && !(l in s.low && Joins(l.conn, a, b))
    ensures var s' := Step(site, s, LoseHigh(l));
            && (Pending(s', a, b) <==> !OnlyPending(s, a, b, Hello(l, a)))
            && (BoundTo(s', a, b) <==> exists e :: e in s.d2d && e.at == a && e.node == b && e.chid != l.hiHandle)
            && (OnlyPending(s, a, b, Hello(l, a)) && Pending(s, a, b) ==> Hello(l, a) in s.hellos && Joins(l.conn, a, b))
            && (BoundTo(s, a, b) || (Hello(l, a) in s.hellos && Joins(l.conn, a, b)) ==> Touched(s, a, b))
  {
    var s' := Step(site, s, LoseHigh(l));
    if BoundTo(s, a, b) {
      var e :| e in s.d2d && e.at == a && e.node == b;
      assert e.via.conn in s.conns && Joins(e.via.conn, a, b);
    }
    if e :| e in s.d2d && e.at == a && e.node == b && e.chid != l.hiHandle {
      assert e in s'.d2d;
    }
  }

  /** One step: exactly the wasting steps make a pair go missing, and exactly the healing
      steps set it right. */
  lemma StepMissing(site: Site, s: Grid, act: Action, a: Node, b: Node)
    requires ShapeInv(site, s) && Enabled(site, s, act)
    ensures Missing(Step(site, s, act), a, b) <==>
              (Missing(s, a, b) && !Heals(site, s, act, a, b)) || Wastes(site, s, act, a, b)
  {
    match act
    case Anneal(n) => AnnealMissing(site, s, n, a, b);
    case Open(_, _, _) => OpenMissing(site, s, act, a, b);
    case HelloArrives(h) => HelloMissing(site, s, h, a, b);
    case LoseLow(l) => LoseLowMissing(site, s, l, a, b);
    case LoseHigh(l) => LoseHighMissing(site, s, l, a, b);
  }

  /** Some step of the run wasted the entry of b at a, and no later one healed the pair. */
  predicate Overlooked(site: Site, run: seq<Action>, a: Node, b: Node)
    requires Runnable(site, START, run)
    decreases |run|
  {
    run != [] && (
      var n := |run| - 1;
      var s := Run(site, START, run[..n]);
      Wastes(site, s, run[n], a, b) || (Overlooked(site, run[..n], a, b) && !Heals(site, s, run[n], a, b)))
  }

  lemma {:induction false} MissingIff(site: Site, run: seq<Action>, a: Node, b: Node)
    requires Runnable(site, START, run)
    ensures Missing(Run(site, START, run), a, b) <==> Overlooked(site, run, a, b)
    decreases |run|
  {
    if run != [] {
      var n := |run| - 1;
      MissingIff(site, run[..n], a, b);
      RunKeepsInv(site, run[..n]);
      StepMissing(site, Run(site, START, run[..n]), run[n], a, b);
    }
  }

  /** Nothing is under way and both ends of every link agree that it is open. */
  predicate Settled(s: Grid) {
    s.requested == {} && s.hellos == {} && s.low == s.high
  }

  /** The D2D tables as the links of the routing model. */
  function LinksOf(s: Grid): set<(Node, Node)> {
    set e <- s.d2d :: (e.at, e.node)
  }

  ghost predicate Formed(site: Site, run: seq<Action>, w: Mesh.World, tb: Mesh.Tables)
    requires Runnable(site, START, run)
  {
    var s := Run(site, START, run);
    w.nodes == site.nodes && site.nodes <= s.annealed && Settled(s) && tb.links == LinksOf(s)
  }

  lemma LinkIff(s: Grid, a: Node, b: Node)
    ensures (a, b) in LinksOf(s) <==> BoundTo(s, a, b)
  {
    if BoundTo(s, a, b) {
      var e :| e in s.d2d && e.at == a && e.node == b;
      assert (e.at, e.node) in LinksOf(s);
    }
  }

  lemma PairIff(site: Site, run: seq<Action>, w: Mesh.World, tb: Mesh.Tables, a: Node, b: Node)
    requires Runnable(site, START, run) && Formed(site, run, w, tb)
    requires a in site.nodes && b in site.nodes && a != b
    ensures (a, b) in tb.links <==> !Overlooked(site, run, a, b)
  {
    var s := Run(site, START, run);
    RunKeepsInv(site, run);
    MissingIff(site, run, a, b);
    LinkIff(s, a, b);
    assert Touched(s, if a < b then a else b, if a < b then b else a);
    var c :| c in s.conns && Joins(c, if a < b then a else b, if a < b then b else a);
    assert Joins(c, a, b);
  }

  /** With failures: once all have been annealed and everything has settled, the mesh is
      complete in both directions if and only if no pair was overlooked in the run. */
  lemma MeshCompleteIff(site: Site, run: seq<Action>, w: Mesh.World, tb: Mesh.Tables)
    requires Runnable(site, START, run) && Formed(site, run, w, tb)
    ensures Mesh.NoSelfLink(tb)
    ensures Mesh.Complete(w, tb) <==>
              forall a, b :: a in site.nodes && b in site.nodes && a != b ==> !Overlooked(site, run, a, b)
  {
    NoSelfEntry(site, run, w, tb);
    forall a, b | a in site.nodes && b in site.nodes && a != b
      ensures (a, b) in tb.links <==> !Overlooked(site, run, a, b)
    {
      PairIff(site, run, w, tb, a, b);
    }
  }

  lemma NoSelfEntry(site: Site, run: seq<Action>, w: Mesh.World, tb: Mesh.Tables)
    requires Runnable(site, START, run) && Formed(site, run, w, tb)
    ensures Mesh.NoSelfLink(tb)
  {
    RunKeepsInv(site, run);
  }

  // ---------------------------------------------------------------------------
  // Without failures

  predicate LossFree(run: seq<Action>) {
    forall i :: 0 <= i < |run| ==> !run[i].LoseLow? && !run[i].LoseHigh?
  }

  /** Every entry belongs to an open link whose HELLO has been used. */
  predicate FreshInv(s: Grid) {
    && s.low == s.high
    && forall e :: e in s.d2d ==> EndUp(s, e.via, e.at) && Hello(e.via, e.at) !in s.hellos
  }

  lemma StepKeepsFresh(site: Site, s: Grid, a: Action)
    requires ShapeInv(site, s) && FreshInv(s) && Enabled(site, s, a) && !a.LoseLow? && !a.LoseHigh?
    ensures FreshInv(Step(site, s, a))
  {
    if a.Open? {
      var l := Link(a.c, s.next, a.loHandle, a.hiHandle);
      assert l !in s.low + s.high;
    }
  }

  predicate OwnPeers(site: Site) {
    forall a, b :: a in site.nodes && b in site.nodes && site.peer(a) == site.peer(b) ==> a == b
  }

  /** A HELLO is refused only by an entry for its sender. */
  lemma FreshWastesNothing(site: Site, s: Grid, h: Hello)
    requires Inv(site, s) && FreshInv(s) && OwnPeers(site) && h in s.hellos
    requires Refused(s.d2d, EntryOf(site, h))
    ensures BoundTo(s, h.to, Far(h.link.conn, h.to))
  {
    var e := EntryOf(site, h);
    var x :| x in s.d2d && Clash(x, e);
    assert x == EntryOf(site, Hello(x.via, x.at));
    assert EndUp(s, x.via, x.at) && EndUp(s, h.link, h.to) && x.via != h.link;
    assert x.chid != e.chid;
    assert x.node == e.node;
  }

  lemma {:induction false} NothingOverlooked(site: Site, run: seq<Action>, a: Node, b: Node)
    requires Runnable(site, START, run) && LossFree(run) && OwnPeers(site)
    ensures FreshInv(Run(site, START, run)) && !Overlooked(site, run, a, b)
    decreases |run|
  {
    if run != [] {
      var n := |run| - 1;
      var s := Run(site, START, run[..n]);
      NothingOverlooked(site, run[..n], a, b);
      RunKeepsInv(site, run[..n]);
      StepKeepsFresh(site, s, run[n]);
      if run[n].HelloArrives? && Refused(s.d2d, EntryOf(site, run[n].h)) {
        FreshWastesNothing(site, s, run[n].h);
      }
    }
  }

  /** Without failures, and with a peer id per dispatcher: once every dispatcher has been
      annealed and nothing is under way, every pair is bound in both directions. */
  lemma MeshIsComplete(site: Site, run: seq<Action>, w: Mesh.World, tb: Mesh.Tables)
    requires Runnable(site, START, run) && LossFree(run) && OwnPeers(site)
    requires var s := Run(site, START, run);
             && w.nodes == site.nodes && site.nodes <= s.annealed && tb.links == LinksOf(s)
             && s.requested == {} && s.hellos == {}
    ensures Mesh.Complete(w, tb) && Mesh.NoSelfLink(tb)
  {
    NothingOverlooked(site, run, 0, 0);
    MeshCompleteIff(site, run, w, tb);
    forall a, b | a in site.nodes && b in site.nodes && a != b
      ensures !Overlooked(site, run, a, b)
    {
      NothingOverlooked(site, run, a, b);
    }
  }

  // ---------------------------------------------------------------------------
  // Openings an operator could vouch for

  /** The connection is opened when the accepting end has let go of its older links, and on
      handle numbers that no entry of either table still names. */
  predicate CleanOpening(s: Grid, a: Action) {
    a.Open? ==>
      && (forall l :: l in s.high ==> l.conn != a.c)
      && (forall e :: e in s.d2d && e.at == a.c.lo ==> e.chid != a.loHandle)
      && (forall e :: e in s.d2d && e.at == a.c.hi ==> e.chid != a.hiHandle)
  }

  predicate Careful(site: Site, run: seq<Action>)
    requires Runnable(site, START, run)
    decreases |run|
  {
    run == [] || (
      var n := |run| - 1;
      Careful(site, run[..n]) && CleanOpening(Run(site, START, run[..n]), run[n]))
  }

  /** A connection is being established or has one open link, not both. */
  ghost predicate LowInv(s: Grid) {
    && (forall c :: c in s.conns ==> c.serial < s.next)
    && (forall c :: c in s.conns && c !in s.requested ==> exists l :: l in s.low && l.conn == c)
    && (forall l :: l in s.low ==> l.conn !in s.requested)
    && (forall l, l' :: l in s.low && l' in s.low && l.conn == l'.conn ==> l == l')
  }

  /** What careful openings add: an end of a link that is open is the only one its handle
      number stands for in the table, and the two ends hold the same link. */
  predicate CleanInv(s: Grid) {
    && (forall l, e :: l in s.low && e in s.d2d && e.at == l.conn.lo && e.chid == l.loHandle ==> e.via == l)
    && (forall l, e :: l in s.high && e in s.d2d && e.at == l.conn.hi && e.chid == l.hiHandle ==> e.via == l)
    && (forall l, l' :: l in s.high && l' in s.low && l.conn == l'.conn ==> l == l')
  }

  lemma StepKeepsLow(site: Site, s: Grid, a: Action)
    requires ShapeInv(site, s) && LowInv(s) && Enabled(site, s, a)
    ensures LowInv(Step(site, s, a))
  {
    var s' := Step(site, s, a);
    StepKeepsOneLow(site, s, a);
    forall c | c in s'.conns && c !in s'.requested
      ensures exists l :: l in s'.low && l.conn == c
    {
      var l := LowLink(site, s, a, c);
    }
  }

  lemma LowLink(site: Site, s: Grid, a: Action, c: Conn) returns (l: Link)
    requires LowInv(s) && Enabled(site, s, a)
    requires c in Step(site, s, a).conns && c !in Step(site, s, a).requested
    ensures l in Step(site, s, a).low && l.conn == c
  {
    if a.Open? && a.c == c {
      l := Link(c, s.next, a.loHandle, a.hiHandle);
    } else {
      l :| l in s.low && l.conn == c;
    }
  }

  lemma StepKeepsOneLow(site: Site, s: Grid, a: Action)
    requires ShapeInv(site, s) && LowInv(s) && Enabled(site, s, a)
    ensures var s' := Step(site, s, a);
            && (forall c :: c in s'.conns ==> c.serial < s'.next)
            && (forall l :: l in s'.low ==> l.conn !in s'.requested)
            && (forall l, l' :: l in s'.low && l' in s'.low && l.conn == l'.conn ==> l == l')
  {
  }

  lemma OpenKeepsClean(s: Grid, l: Link)
    requires LowInv(s) && CleanInv(s) && l.conn in s.requested
    requires forall l' :: l' in s.high ==> l'.conn != l.conn
    requires forall e :: e in s.d2d && e.at == l.conn.lo ==> e.chid != l.loHandle
    requires forall e :: e in s.d2d && e.at == l.conn.hi ==> e.chid != l.hiHandle
    ensures CleanInv(Opened(s, l))
  {
  }

  lemma HelloKeepsClean(site: Site, s: Grid, h: Hello)
    requires ShapeInv(site, s) && HandleInv(s) && CleanInv(s) && h in s.hellos
    ensures CleanInv(Step(site, s, HelloArrives(h)))
  {
    var e := EntryOf(site, h);
    forall l | l in s.low && e.at == l.conn.lo && e.chid == l.loHandle
      ensures e.via == l
    {
      assert EndUp(s, h.link, h.to);
    }
    forall l | l in s.high && e.at == l.conn.hi && e.chid == l.hiHandle
      ensures e.via == l
    {
      assert EndUp(s, h.link, h.to);
    }
  }

  lemma StepKeepsClean(site: Site, s: Grid, a: Action)
    requires Inv(site, s) && LowInv(s) && CleanInv(s) && Enabled(site, s, a) && CleanOpening(s, a)
    ensures CleanInv(Step(site, s, a))
  {
    match a
    case Open(c, lh, hh) => OpenKeepsClean(s, Link(c, s.next, lh, hh));
    case HelloArrives(h) => HelloKeepsClean(site, s, h);
    case _ =>
  }

  lemma CleanHello(site: Site, s: Grid, h: Hello)
    requires Inv(site, s) && CleanInv(s) && OwnPeers(site) && h in s.hellos
    requires Refused(s.d2d, EntryOf(site, h))
    ensures BoundTo(s, h.to, Far(h.link.conn, h.to))
  {
    var e := EntryOf(site, h);
    var x :| x in s.d2d && Clash(x, e);
    assert x == EntryOf(site, Hello(x.via, x.at));
    assert EndUp(s, h.link, h.to);
    assert x.chid == e.chid ==> x.via == h.link;
    assert x.node == e.node;
  }

  lemma CleanLoss(site: Site, s: Grid, l: Link, a: Node, b: Node)
    requires Inv(site, s) && LowInv(s) && CleanInv(s) && l in s.high
    ensures !Wastes(site, s, LoseHigh(l), a, b)
  {
    if l.conn !in s.requested {
      var l' :| l' in s.low && l'.conn == l.conn;
      assert l' == l;
    }
    assert forall e :: e in s.d2d && e.at == l.conn.hi && e.chid == l.hiHandle ==> Joins(l.conn, e.at, e.node);
  }

  /** Careful openings overlook nobody, however often connections fail. */
  lemma {:induction false} CarefulOverlooksNothing(site: Site, run: seq<Action>, a: Node, b: Node)
    requires Runnable(site, START, run) && Careful(site, run) && OwnPeers(site)
    ensures var s := Run(site, START, run); LowInv(s) && CleanInv(s)
    ensures !Overlooked(site, run, a, b)
    decreases |run|
  {
    if run != [] {
      var n := |run| - 1;
      var s := Run(site, START, run[..n]);
      CarefulOverlooksNothing(site, run[..n], a, b);
      RunKeepsInv(site, run[..n]);
      StepKeepsLow(site, s, run[n]);
      StepKeepsClean(site, s, run[n]);
      CleanStep(site, s, run[n], a, b);
    }
  }

  lemma CleanStep(site: Site, s: Grid, act: Action, a: Node, b: Node)
    requires Inv(site, s) && LowInv(s) && CleanInv(s) && OwnPeers(site) && Enabled(site, s, act)
    ensures !Wastes(site, s, act, a, b)
  {
    match act
    case HelloArrives(h) =>
      if Refused(s.d2d, EntryOf(site, h)) {
        CleanHello(site, s, h);
      }
    case LoseHigh(l) => CleanLoss(site, s, l, a, b);
    case _ =>
  }

  /** So with careful openings a settled mesh is complete, failures or not. */
  lemma CarefulMeshIsComplete(site: Site, run: seq<Action>, w: Mesh.World, tb: Mesh.Tables)
    requires Runnable(site, START, run) && Careful(site, run) && OwnPeers(site) && Formed(site, run, w, tb)
    ensures Mesh.Complete(w, tb) && Mesh.NoSelfLink(tb)
  {
    MeshCompleteIff(site, run, w, tb);
    forall a, b | a in site.nodes && b in site.nodes && a != b
      ensures !Overlooked(site, run, a, b)
    {
      CarefulOverlooksNothing(site, run, a, b);
    }
  }

  /** Formation and routing together: over a mesh formed in any order, with or without
      failures but with no pair overlooked, every registered subscriber gets every
      published message exactly once. */
  lemma AnnealedMeshDelivers(site: Site, run: seq<Action>, w: Mesh.World, tb: Mesh.Tables,
                             traffic: seq<Mesh.Action>, id: nat, m: Mesh.Model)
    requires Runnable(site, START, run) && Formed(site, run, w, tb)
    requires forall a, b :: a in site.nodes && b in site.nodes && a != b ==> !Overlooked(site, run, a, b)
    requires Mesh.Housed(w, tb) && Mesh.Static(traffic) && Mesh.Runnable(w, Mesh.Start(tb), traffic)
    requires var s := Mesh.Run(w, Mesh.Start(tb), traffic);
             && id < |s.published| && s.published[id].origin in w.nodes && s.published[id].kind.Subscribers?
             && (forall p :: p in s.flight ==> p.id != id)
             && m in tb.bound && (s.published[id].kind.key, m) in tb.subs
    ensures Mesh.Run(w, Mesh.Start(tb), traffic).log[(id, m)] == 1
  {
    MeshCompleteIff(site, run, w, tb);
    Mesh.CompleteMeshDelivers(w, tb, traffic, id, m);
  }

  // ---------------------------------------------------------------------------
  // Formation comes to an end

  predicate Quiet(a: Action) {
    a.Open? || a.HelloArrives?
  }

  /** An opening turns one request into two HELLOs. */
  function Left(s: Grid): nat {
    3 * |s.requested| + |s.hellos|
  }

  lemma QuietLowers(site: Site, s: Grid, a: Action)
    requires Enabled(site, s, a) && Quiet(a)
    ensures Left(Step(site, s, a)) < Left(s)
  {
    if a.Open? {
      var l := Link(a.c, s.next, a.loHandle, a.hiHandle);
      var more := {Hello(l, a.c.lo), Hello(l, a.c.hi)};
      assert |more| <= 2 by { AtMostTwo(Hello(l, a.c.lo), Hello(l, a.c.hi)); }
      UnionSize(s.hellos, more);
    }
  }

  lemma AtMostTwo(x: Hello, y: Hello)
    ensures |{x, y}| <= 2
  {
    assert {x, y} == {x} + {y};
  }

  lemma UnionSize(a: set<Hello>, b: set<Hello>)
    ensures |a + b| <= |a| + |b|
  {
  }

  lemma {:induction false} Unused(used: set<nat>) returns (h: nat)
    ensures forall x :: x in used ==> x < h
    decreases used
  {
    h := 0;
    if used != {} {
      var x :| x in used;
      var g := Unused(used - {x});
      h := if x < g then g else x + 1;
      assert used == (used - {x}) + {x};
    }
  }

  lemma QuietStep(site: Site, s: Grid) returns (a: Action)
    requires s.requested != {} || s.hellos != {}
    ensures Quiet(a) && Enabled(site, s, a)
  {
    if s.hellos != {} {
      var h :| h in s.hellos;
      a := HelloArrives(h);
    } else {
      var c :| c in s.requested;
      var lh := Unused(InUse(s, c.lo));
      var hh := Unused(InUse(s, c.hi));
      a := Open(c, lh, hh);
    }
  }

  /** Openings and HELLOs alone: every such run is at most as long as what is left to do... */
  lemma {:induction false} QuietRunsAreShort(site: Site, s: Grid, run: seq<Action>)
    requires Runnable(site, s, run) && forall i :: 0 <= i < |run| ==> Quiet(run[i])
    ensures Left(Run(site, s, run)) + |run| <= Left(s)
    decreases |run|
  {
    if run != [] {
      QuietRunsAreShort(site, s, run[..|run| - 1]);
      QuietLowers(site, Run(site, s, run[..|run| - 1]), run[|run| - 1]);
    }
  }

  /** ...and can be continued until nothing is requested and no HELLO under way. */
  lemma {:induction false} Quiesces(site: Site, s: Grid, run: seq<Action>) returns (all: seq<Action>)
    requires Runnable(site, s, run) && forall i :: 0 <= i < |run| ==> Quiet(run[i])
    ensures run <= all && Runnable(site, s, all) && forall i :: 0 <= i < |all| ==> Quiet(all[i])
    ensures Run(site, s, all).requested == {} && Run(site, s, all).hellos == {}
    decreases Left(Run(site, s, run))
  {
    var t := Run(site, s, run);
    if t.requested == {} && t.hellos == {} {
      all := run;
    } else {
      var a := QuietStep(site, t);
      assert (run + [a])[..|run|] == run;
      QuietLowers(site, t, a);
      all := Quiesces(site, s, run + [a]);
    }
  }

  // ---------------------------------------------------------------------------
  // Pairs are overlooked

  lemma Then(site: Site, run: seq<Action>, s: Grid, a: Action) returns (longer: seq<Action>)
    requires Runnable(site, START, run) && Run(site, START, run) == s && Enabled(site, s, a)
    ensures Runnable(site, START, longer) && Run(site, START, longer) == Step(site, s, a)
  {
    longer := run + [a];
    assert longer[..|run|] == run;
  }

  /** Dispatchers 0 and 1, annealed, with one connection opened on handles 3 and 3. */
  const TWO := Site({0, 1}, (n: Node) => n)
  const ONLY := Conn(0, 1, 1)
  const FIRST := Link(ONLY, 2, 3, 3)
  const SECOND := Link(ONLY, 3, 3, 4)
  const JOINED := Grid({0, 1}, {ONLY}, {}, {FIRST}, {FIRST}, {Hello(FIRST, 0), Hello(FIRST, 1)}, {}, 3)

  function Met(): set<Entry> {
    {EntryOf(TWO, Hello(FIRST, 1)), EntryOf(TWO, Hello(FIRST, 0))}
  }

  lemma JoinedRun() returns (run: seq<Action>)
    ensures Runnable(TWO, START, run) && Run(TWO, START, run) == JOINED
  {
    run := Then(TWO, [], START, Anneal(1));
    var s1 := START.(annealed := {1}, next := 1);
    assert Step(TWO, START, Anneal(1)) == s1;
    run := Then(TWO, run, s1, Anneal(0));
    var s2 := Grid({0, 1}, {ONLY}, {ONLY}, {}, {}, {}, {}, 2);
    assert Initiated(TWO.nodes, s1, 0) == {ONLY};
    assert Step(TWO, s1, Anneal(0)) == s2;
    run := Then(TWO, run, s2, Open(ONLY, 3, 3));
  }

  lemma MetRun() returns (run: seq<Action>)
    ensures Runnable(TWO, START, run) && Run(TWO, START, run) == JOINED.(hellos := {}, d2d := Met())
  {
    run := JoinedRun();
    run := Then(TWO, run, JOINED, HelloArrives(Hello(FIRST, 1)));
    var s := JOINED.(hellos := {Hello(FIRST, 0)}, d2d := {EntryOf(TWO, Hello(FIRST, 1))});
    assert Step(TWO, JOINED, HelloArrives(Hello(FIRST, 1))) == s;
    run := Then(TWO, run, s, HelloArrives(Hello(FIRST, 0)));
    assert Step(TWO, s, HelloArrives(Hello(FIRST, 0))) == JOINED.(hellos := {}, d2d := Met());
  }

  /** The connecting end notices a failure first and reconnects; its new HELLO is refused,
      since the old entry is still there. */
  lemma ReopenedRun() returns (run: seq<Action>)
    ensures Runnable(TWO, START, run)
    ensures Run(TWO, START, run)
         == Grid({0, 1}, {ONLY}, {}, {SECOND}, {FIRST, SECOND}, {Hello(SECOND, 0)}, Met(), 4)
  {
    run := MetRun();
    var s1 := JOINED.(hellos := {}, d2d := Met());
    run := Then(TWO, run, s1, LoseLow(FIRST));
    var s2 := Grid({0, 1}, {ONLY}, {ONLY}, {}, {FIRST}, {}, Met(), 3);
    assert Step(TWO, s1, LoseLow(FIRST)) == s2;
    run := Then(TWO, run, s2, Open(ONLY, 3, 4));
    Reopen(s2);
    RefusedAgain();
    run := Then(TWO, run, Opened(s2, SECOND), HelloArrives(Hello(SECOND, 1)));
  }

  lemma Reopen(s: Grid)
    requires s == Grid({0, 1}, {ONLY}, {ONLY}, {}, {FIRST}, {}, Met(), 3)
    ensures Enabled(TWO, s, Open(ONLY, 3, 4)) && Step(TWO, s, Open(ONLY, 3, 4)) == Opened(s, SECOND)
    ensures Opened(s, SECOND)
         == Grid({0, 1}, {ONLY}, {}, {SECOND}, {FIRST, SECOND}, {Hello(SECOND, 0), Hello(SECOND, 1)}, Met(), 4)
  {
  }

  lemma RefusedAgain()
    ensures var s := Grid({0, 1}, {ONLY}, {}, {SECOND}, {FIRST, SECOND}, {Hello(SECOND, 0), Hello(SECOND, 1)}, Met(), 4);
            Step(TWO, s, HelloArrives(Hello(SECOND, 1))) == s.(hellos := {Hello(SECOND, 0)})
  {
    assert Clash(EntryOf(TWO, Hello(FIRST, 1)), EntryOf(TWO, Hello(SECOND, 1)));
  }

  /** Then the accepting end destroys the old handler and with it the entry: everything has
      settled, both dispatchers are annealed and connected, and 1 has no entry for 0. */
  lemma OneSidedLoss() returns (run: seq<Action>)
    ensures Runnable(TWO, START, run)
    ensures var s := Run(TWO, START, run);
            Settled(s) && TWO.nodes <= s.annealed && s.high == {SECOND} && !BoundTo(s, 1, 0)
    ensures Overlooked(TWO, run, 1, 0)
  {
    run := ReopenedRun();
    var s1 := Grid({0, 1}, {ONLY}, {}, {SECOND}, {FIRST, SECOND}, {Hello(SECOND, 0)}, Met(), 4);
    run := Then(TWO, run, s1, HelloArrives(Hello(SECOND, 0)));
    assert Clash(EntryOf(TWO, Hello(FIRST, 0)), EntryOf(TWO, Hello(SECOND, 0)));
    var s2 := s1.(hellos := {});
    assert Step(TWO, s1, HelloArrives(Hello(SECOND, 0))) == s2;
    run := Then(TWO, run, s2, LoseHigh(FIRST));
    var s3 := Step(TWO, s2, LoseHigh(FIRST));
    assert s3.d2d == {EntryOf(TWO, Hello(FIRST, 0))};
    assert ONLY in s3.conns && Joins(ONLY, 1, 0);
    MissingIff(TWO, run, 1, 0);
  }

  /** Dispatcher 1 has lost a connection to 2 on handle 5 and kept the entry; then 0
      connects, and the accepted socket is given the handle number 5 again. */
  const THREE := Site({0, 1, 2}, (n: Node) => n)
  const UPPER := Conn(1, 2, 0)
  const STALE := Link(UPPER, 1, 5, 6)
  const LOWER := Conn(0, 1, 2)
  const REUSED := Link(LOWER, 3, 7, 5)

  lemma StaleRun() returns (run: seq<Action>)
    ensures Runnable(THREE, START, run)
    ensures Run(THREE, START, run)
         == Grid({1}, {UPPER}, {UPPER}, {}, {STALE}, {Hello(STALE, 2)}, {EntryOf(THREE, Hello(STALE, 1))}, 2)
  {
    run := Then(THREE, [], START, Anneal(1));
    assert Initiated(THREE.nodes, START, 1) == {UPPER};
    var s1 := Grid({1}, {UPPER}, {UPPER}, {}, {}, {}, {}, 1);
    assert Step(THREE, START, Anneal(1)) == s1;
    run := Then(THREE, run, s1, Open(UPPER, 5, 6));
    var s2 := Grid({1}, {UPPER}, {}, {STALE}, {STALE}, {Hello(STALE, 1), Hello(STALE, 2)}, {}, 2);
    assert Step(THREE, s1, Open(UPPER, 5, 6)) == s2;
    run := Then(THREE, run, s2, HelloArrives(Hello(STALE, 1)));
    var s3 := s2.(hellos := {Hello(STALE, 2)}, d2d := {EntryOf(THREE, Hello(STALE, 1))});
    assert Step(THREE, s2, HelloArrives(Hello(STALE, 1))) == s3;
    run := Then(THREE, run, s3, LoseLow(STALE));
    assert Step(THREE, s3, LoseLow(STALE)).requested == {UPPER};
  }

  lemma AnnealedRun() returns (run: seq<Action>)
    ensures Runnable(THREE, START, run)
    ensures Run(THREE, START, run)
         == Grid({0, 1}, {UPPER, LOWER, Conn(0, 2, 2)}, {UPPER, LOWER, Conn(0, 2, 2)}, {}, {STALE},
                 {Hello(STALE, 2)}, {EntryOf(THREE, Hello(STALE, 1))}, 3)
  {
    run := StaleRun();
    var s1 := Grid({1}, {UPPER}, {UPPER}, {}, {STALE}, {Hello(STALE, 2)}, {EntryOf(THREE, Hello(STALE, 1))}, 2);
    run := Then(THREE, run, s1, Anneal(0));
    assert Initiated(THREE.nodes, s1, 0) == {LOWER, Conn(0, 2, 2)};
  }

  lemma ReusedHandle() returns (run: seq<Action>)
    ensures Runnable(THREE, START, run)
    ensures REUSED in Run(THREE, START, run).high && Missing(Run(THREE, START, run), 1, 0)
    ensures Overlooked(THREE, run, 1, 0)
  {
    run := AnnealedRun();
    var e := EntryOf(THREE, Hello(STALE, 1));
    var asked := {UPPER, LOWER, Conn(0, 2, 2)};
    var s2 := Grid({0, 1}, asked, asked, {}, {STALE}, {Hello(STALE, 2)}, {e}, 3);
    run := Then(THREE, run, s2, Open(LOWER, 7, 5));
    var s3 := Step(THREE, s2, Open(LOWER, 7, 5));
    assert s3 == Grid({0, 1}, asked, {UPPER, Conn(0, 2, 2)}, {REUSED}, {STALE, REUSED},
                      {Hello(STALE, 2), Hello(REUSED, 0), Hello(REUSED, 1)}, {e}, 4);
    run := Then(THREE, run, s3, HelloArrives(Hello(REUSED, 1)));
    HandleRefused(s3);
    MissingIff(THREE, run, 1, 0);
  }

  lemma HandleRefused(s: Grid)
    requires s.conns == {UPPER, LOWER, Conn(0, 2, 2)} && s.requested == {UPPER, Conn(0, 2, 2)}
    requires s.low == {REUSED} && s.high == {STALE, REUSED}
    requires s.hellos == {Hello(STALE, 2), Hello(REUSED, 0), Hello(REUSED, 1)}
    requires s.d2d == {EntryOf(THREE, Hello(STALE, 1))}
    ensures Missing(Step(THREE, s, HelloArrives(Hello(REUSED, 1))), 1, 0)
  {
    var s' := Step(THREE, s, HelloArrives(Hello(REUSED, 1)));
    assert Clash(EntryOf(THREE, Hello(STALE, 1)), EntryOf(THREE, Hello(REUSED, 1)));
    assert s'.hellos == {Hello(STALE, 2), Hello(REUSED, 0)};
    assert LOWER in s'.conns && Joins(LOWER, 1, 0);
  }

  // ---------------------------------------------------------------------------
  // The table is the identity table

  function RecordOf(e: Entry, number: Handler -> int): Identity.DispatcherRecord {
    Identity.DispatcherRecord(e.chid, e.peer, e.node, number(e.ch))
  }

  function TableAt(d2d: set<Entry>, n: Node, number: Handler -> int): set<Identity.DispatcherRecord> {
    set e <- d2d | e.at == n :: RecordOf(e, number)
  }

  ghost predicate Distinguishes(number: Handler -> int) {
    forall x, y :: number(x) == number(y) ==> x == y
  }

  /** Bind and unbind here are bind and unbindCHID of the multi-index D2D table. */
  lemma BindIsTableBind(d2d: set<Entry>, e: Entry, number: Handler -> int)
    requires Distinguishes(number)
    ensures TableAt(Bind(d2d, e), e.at, number)
         == Identity.Apply(Identity.DispatcherKeys(), TableAt(d2d, e.at, number), Identity.Bind(RecordOf(e, number)))
  {
    var t, r := TableAt(d2d, e.at, number), RecordOf(e, number);
    Identity.DispatcherTaken(t, r);
    if Refused(d2d, e) {
      var x :| x in d2d && Clash(x, e);
      assert RecordOf(x, number) in t;
    } else {
      assert TableAt(d2d + {e}, e.at, number) == t + {r};
    }
  }

  lemma UnbindIsTableUnbind(d2d: set<Entry>, n: Node, handle: nat, number: Handler -> int)
    ensures TableAt(UnbindHandle(d2d, n, handle), n, number)
         == Identity.Apply(Identity.DispatcherKeys(), TableAt(d2d, n, number), Identity.Unbind(0, handle))
  {
    var after := TableAt(UnbindHandle(d2d, n, handle), n, number);
    forall r
      ensures r in after <==> r in TableAt(d2d, n, number) && r.chid != handle
    {
      if r in TableAt(d2d, n, number) && r.chid != handle {
        var e :| e in d2d && e.at == n && RecordOf(e, number) == r;
        assert e in UnbindHandle(d2d, n, handle);
      }
    }
    Identity.DispatcherUnbindHandle(TableAt(d2d, n, number), handle);
  }

  // ---------------------------------------------------------------------------
  // The annealing loop

  function Unbound(higher: seq<Node>, bound: set<Node>): seq<Node> {
    if higher == [] then []
    else (if higher[0] in bound then [] else [higher[0]]) + Unbound(higher[1..], bound)
  }

  lemma {:induction false} UnboundSnoc(higher: seq<Node>, bound: set<Node>, i: nat)
    requires i < |higher|
    ensures Unbound(higher[..i + 1], bound) == Unbound(higher[..i], bound) + (if higher[i] in bound then [] else [higher[i]])
    decreases i
  {
    if i > 0 {
      UnboundSnoc(higher[1..], bound, i - 1);
      assert higher[..i + 1][1..] == higher[1..][..i];
      assert higher[..i][1..] == higher[1..][..i - 1];
    } else {
      assert higher[..1][1..] == [];
    }
  }

  lemma {:induction false} UnboundMembers(higher: seq<Node>, bound: set<Node>, h: Node)
    ensures h in Unbound(higher, bound) <==> h in higher && h !in bound
  {
    if higher != [] {
      UnboundMembers(higher[1..], bound, h);
      assert higher == [higher[0]] + higher[1..];
    }
  }

  /** One connection each: a dispatcher listed once is asked for at most once. */
  lemma {:induction false} UnboundOnce(higher: seq<Node>, bound: set<Node>)
    requires forall i, j :: 0 <= i < j < |higher| ==> higher[i] != higher[j]
    ensures var u := Unbound(higher, bound); forall i, j :: 0 <= i < j < |u| ==> u[i] != u[j]
  {
    if higher != [] {
      UnboundOnce(higher[1..], bound);
      UnboundMembers(higher[1..], bound, higher[0]);
    }
  }

  class EventChannel {
    var bound: set<Node>     // nodes with a D2D entry
    var connects: seq<Node>  // connections asked for, in order

    constructor ()
      ensures bound == {} && connects == []
    {
      bound, connects := {}, [];
    }

    /** One connection for every higher dispatcher without an entry, in the order listed. */
    method InitiateAll(higher: seq<Node>)
      modifies this`connects
      ensures connects == old(connects) + Unbound(higher, bound)
    {
      var i := 0;
      while i < |higher|
        invariant 0 <= i <= |higher|
        invariant connects == old(connects) + Unbound(higher[..i], bound)
      {
        UnboundSnoc(higher, bound, i);
        if higher[i] !in bound {
          connects := connects + [higher[i]];
        }
        i := i + 1;
      }
      assert higher[..i] == higher;
    }
  }

  /** The loop asks for exactly the connections of the Anneal step. */
  lemma InitiateAllIsAnneal(nodes: set<Node>, s: Grid, n: Node, higher: seq<Node>, bound: set<Node>, h: Node)
    requires forall x: Node :: x in higher <==> x in nodes && x > n
    requires forall x: Node :: x in bound <==> BoundTo(s, n, x)
    ensures h in Unbound(higher, bound) <==> Conn(n, h, s.next) in Initiated(nodes, s, n)
  {
    UnboundMembers(higher, bound, h);
  }
}
