/**
 * Point-to-point routing when the dispatchers do not agree. Every dispatcher caches routes
 * for itself, so each may see a different placement of models; here each routes by a world
 * of its own. The tables stay as they are during a run.
 */
module Views {
  import opened Mesh

  type View = Node -> World

  function Step(v: View, s: Net, a: Action): Net
    requires Enabled(s, a) && !a.Retable?
  {
    Mesh.Step(v(if a.Publish? then a.n else a.p.to), s, a)
  }

  predicate Runnable(v: View, s: Net, run: seq<Action>)
    decreases |run|, 0
  {
    run == [] || (
      && Runnable(v, s, run[..|run| - 1])
      && Enabled(Run(v, s, run[..|run| - 1]), run[|run| - 1]) && !run[|run| - 1].Retable?)
  }

  function Run(v: View, s: Net, run: seq<Action>): Net
    requires Runnable(v, s, run)
    decreases |run|, 1
  {
    if run == [] then s else Step(v, Run(v, s, run[..|run| - 1]), run[|run| - 1])
  }

  /** Where dispatcher n sends a point-to-point message on to; it does not look at the
      dispatched bit. */
  function Onward(v: View, tb: Tables, n: Node, k: Kind): set<Node> {
    Remotes(v(n), tb, n, k, true)
  }

  lemma BitIsIgnored(v: View, tb: Tables, n: Node, k: Kind, dispatched: bool)
    requires PointToPoint(k)
    ensures Remotes(v(n), tb, n, k, dispatched) == Onward(v, tb, n, k)
  {
  }

  /** Whoever is sent a point-to-point message by another keeps it. */
  ghost predicate Settles(v: View, tb: Tables) {
    forall n: Node, r: Node, k: Kind ::
      PointToPoint(k) && r in Onward(v, tb, n, k) ==> Onward(v, tb, r, k) == {}
  }

  ghost predicate OneHop(v: View, tb: Tables) {
    forall run: seq<Action> :: Runnable(v, Start(tb), run) ==>
      forall p :: p in Run(v, Start(tb), run).flight ==> p.hops <= 1
  }

  /** Routing reads the registrations and links only, which runs leave alone. */
  predicate SameRoutes(tb: Tables, now: Tables) {
    now.bound == tb.bound && now.links == tb.links
  }

  lemma OnwardSame(v: View, tb: Tables, now: Tables, n: Node, k: Kind)
    requires SameRoutes(tb, now) && PointToPoint(k)
    ensures Onward(v, now, n, k) == Onward(v, tb, n, k)
  {
  }

  /** Every copy under way is on its first hop and, if point-to-point, was sent there by the
      dispatcher where it was published. */
  ghost predicate HopInv(v: View, tb: Tables, s: Net) {
    && SameRoutes(tb, s.tables)
    && forall p :: p in s.flight ==>
         p.hops == 1 && p.dispatched && (PointToPoint(p.kind) ==> exists n: Node :: p.to in Onward(v, tb, n, p.kind))
  }

  lemma PublishKeepsHops(v: View, tb: Tables, s: Net, n: Node, k: Kind)
    requires HopInv(v, tb, s)
    ensures HopInv(v, tb, Step(v, s, Publish(n, k)))
  {
    var s' := Step(v, s, Publish(n, k));
    forall p | p in s'.flight
      ensures p.hops == 1 && p.dispatched
      ensures PointToPoint(p.kind) ==> exists o: Node :: p.to in Onward(v, tb, o, p.kind)
    {
      if p !in s.flight {
        assert p in Copies(|s.published|, k, Remotes(v(n), s.tables, n, k, false), 0);
        if PointToPoint(k) {
          BitIsIgnored(v, s.tables, n, k, false);
          OnwardSame(v, tb, s.tables, n, k);
          assert p.to in Onward(v, tb, n, k);
        }
      }
    }
  }

  lemma ArriveKeepsHops(v: View, tb: Tables, s: Net, p: Packet)
    requires Settles(v, tb) && HopInv(v, tb, s) && p in s.flight
    ensures HopInv(v, tb, Step(v, s, Arrive(p)))
  {
    var rs := Remotes(v(p.to), s.tables, p.to, p.kind, p.dispatched);
    if PointToPoint(p.kind) {
      OnwardSame(v, tb, s.tables, p.to, p.kind);
    }
    assert rs == {};
    assert Copies(p.id, p.kind, rs, p.hops) == {};
  }

  lemma {:induction false} RunKeepsHops(v: View, tb: Tables, run: seq<Action>)
    requires Settles(v, tb) && Runnable(v, Start(tb), run)
    ensures HopInv(v, tb, Run(v, Start(tb), run))
    decreases |run|
  {
    if run != [] {
      var g, a := run[..|run| - 1], run[|run| - 1];
      RunKeepsHops(v, tb, g);
      match a
      case Publish(n, k) => PublishKeepsHops(v, tb, Run(v, Start(tb), g), n, k);
      case Arrive(p) => ArriveKeepsHops(v, tb, Run(v, Start(tb), g), p);
    }
  }

  lemma Then(v: View, s: Net, run: seq<Action>, t: Net, a: Action) returns (longer: seq<Action>)
    requires Runnable(v, s, run) && Run(v, s, run) == t && Enabled(t, a) && !a.Retable?
    ensures Runnable(v, s, longer) && Run(v, s, longer) == Step(v, t, a) && |longer| == |run| + 1
  {
    longer := run + [a];
    assert longer[..|run|] == run;
  }

  lemma SentOn(v: View, s: Net, p: Packet, r: Node)
    requires PointToPoint(p.kind) && p in s.flight && r in Onward(v, s.tables, p.to, p.kind)
    ensures var s' := Step(v, s, Arrive(p));
            s'.tables == s.tables && Packet(p.id, p.kind, r, true, p.hops + 1) in s'.flight
  {
    BitIsIgnored(v, s.tables, p.to, p.kind, p.dispatched);
    var rs := Remotes(v(p.to), s.tables, p.to, p.kind, p.dispatched);
    assert Packet(p.id, p.kind, r, true, p.hops + 1) in Copies(p.id, p.kind, rs, p.hops);
  }

  lemma FirstHop(v: View, tb: Tables, n: Node, k: Kind, r: Node) returns (run: seq<Action>)
    requires PointToPoint(k) && r in Onward(v, tb, n, k)
    ensures Runnable(v, Start(tb), run)
    ensures Run(v, Start(tb), run).tables == tb && Packet(0, k, r, true, 1) in Run(v, Start(tb), run).flight
  {
    BitIsIgnored(v, tb, n, k, false);
    run := Then(v, Start(tb), [], Start(tb), Publish(n, k));
    assert Packet(0, k, r, true, 1) in Copies(0, k, Remotes(v(n), tb, n, k, false), 0);
  }

  /** No message ever makes a second hop, in any run, if and only if whoever one dispatcher
      would send a point-to-point message to would not send it on. */
  lemma OneHopIff(v: View, tb: Tables)
    ensures OneHop(v, tb) <==> Settles(v, tb)
  {
    if Settles(v, tb) {
      forall run: seq<Action> | Runnable(v, Start(tb), run)
        ensures forall p :: p in Run(v, Start(tb), run).flight ==> p.hops <= 1
      {
        RunKeepsHops(v, tb, run);
      }
    } else {
      var n: Node, r: Node, k: Kind :| PointToPoint(k) && r in Onward(v, tb, n, k) && Onward(v, tb, r, k) != {};
      var q: Node :| q in Onward(v, tb, r, k);
      var run := FirstHop(v, tb, n, k, r);
      var s, p := Run(v, Start(tb), run), Packet(0, k, r, true, 1);
      SentOn(v, s, p, q);
      run := Then(v, Start(tb), run, s, Arrive(p));
      assert Packet(0, k, q, true, 2) in Run(v, Start(tb), run).flight;
    }
  }

  /** One shared placement and no self entries are enough. */
  lemma SharedViewSettles(w: World, tb: Tables)
    requires NoSelfLink(tb)
    ensures Settles((n: Node) => w, tb)
  {
    var v: View := (n: Node) => w;
    forall n: Node, r: Node, k: Kind | PointToPoint(k) && r in Onward(v, tb, n, k)
      ensures Onward(v, tb, r, k) == {}
    {
      assert r == w.home(Dest(w, k).value);
    }
  }

  /** Two dispatchers that take the addressee to be at each other, with a message in flight. */
  ghost predicate ToAndFro(v: View, s: Net, p: Packet, r: Node) {
    && PointToPoint(p.kind) && p in s.flight && p.dispatched
    && r in Onward(v, s.tables, p.to, p.kind) && p.to in Onward(v, s.tables, r, p.kind)
  }

  /** They send it to and fro for ever. */
  lemma {:induction false} Shuttles(v: View, s0: Net, run: seq<Action>, p: Packet, r: Node, times: nat)
    returns (longer: seq<Action>, q: Packet, t: Node)
    requires Runnable(v, s0, run) && ToAndFro(v, Run(v, s0, run), p, r)
    ensures Runnable(v, s0, longer) && |longer| == |run| + times
    ensures ToAndFro(v, Run(v, s0, longer), q, t) && q.id == p.id && q.hops == p.hops + times
    decreases times
  {
    longer, q, t := run, p, r;
    if times > 0 {
      longer := Onwards(v, s0, run, p, r);
      longer, q, t := Shuttles(v, s0, longer, Packet(p.id, p.kind, r, true, p.hops + 1), p.to, times - 1);
    }
  }

  lemma Onwards(v: View, s0: Net, run: seq<Action>, p: Packet, r: Node) returns (longer: seq<Action>)
    requires Runnable(v, s0, run) && ToAndFro(v, Run(v, s0, run), p, r)
    ensures Runnable(v, s0, longer) && |longer| == |run| + 1
    ensures ToAndFro(v, Run(v, s0, longer), Packet(p.id, p.kind, r, true, p.hops + 1), p.to)
  {
    SentOn(v, Run(v, s0, run), p, r);
    longer := Then(v, s0, run, Run(v, s0, run), Arrive(p));
  }

  /** Such views are ones that place the addressee at each other, over links both ways. */
  lemma DisagreementShuttles(v: View, tb: Tables, a: Node, b: Node, k: Kind)
    requires PointToPoint(k) && a != b && (a, b) in tb.links && (b, a) in tb.links
    requires Dest(v(a), k).Some? && v(a).home(Dest(v(a), k).value) == b
    requires Dest(v(b), k).Some? && v(b).home(Dest(v(b), k).value) == a
    ensures b in Onward(v, tb, a, k) && a in Onward(v, tb, b, k) && !Settles(v, tb)
  {
  }
}
