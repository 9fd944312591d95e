/**
 * Routing across the dispatcher mesh as a transition system. Every dispatcher applies
 * `PubSubDispatch::process` to the messages its models publish and to the copies other
 * dispatchers send it; the dispatched bit and the shared placement of models keep
 * copies from travelling on.
 */
module Mesh {
  import opened Basics

  type Node = nat
  type Model = nat

  /** How a message names its receivers. */
  datatype Kind =
    | Subscribers(key: nat)
    | WholeJob(job: nat)
    | ToPeer(peer: Model)
    | ToMaster(masterOf: nat)

  /** What all dispatchers read from the shared database and never changes in a run:
      the dispatcher nodes, where each model lives, its job, the job masters, and which
      peers have a route. */
  datatype World = World(
    nodes: set<Node>,
    home: Model -> Node,
    jobOf: Model -> nat,
    master: nat -> Option<Model>,
    known: Model -> bool)

  /** Models registered with their home dispatcher (D2M), who has a D2D entry for whom,
      and the subscription relation (message key, model). */
  datatype Tables = Tables(bound: set<Model>, links: set<(Node, Node)>, subs: set<(nat, Model)>)

  datatype Packet = Packet(id: nat, kind: Kind, to: Node, dispatched: bool, hops: nat)

  datatype Pub = Pub(origin: Node, kind: Kind)

  datatype Net = Net(
    tables: Tables,
    published: seq<Pub>,               // a message's id is its index here
    flight: multiset<Packet>,          // between dispatchers
    log: multiset<(nat, Model)>,       // copies handed to models
    handled: set<(nat, Node)>)         // which dispatcher has processed which message

  function Dest(w: World, k: Kind): Option<Model>
    requires k.ToPeer? || k.ToMaster?
  {
    if k.ToMaster? then w.master(k.masterOf)
    else if w.known(k.peer) then Some(k.peer) else None
  }

  predicate PointToPoint(k: Kind) {
    k.ToPeer? || k.ToMaster?
  }

  /** Models of dispatcher n that get a copy. */
  function Locals(w: World, tb: Tables, n: Node, k: Kind): set<Model> {
    match k
    case Subscribers(key) =>
      set p <- tb.subs | p.0 == key && w.home(p.1) == n && p.1 in tb.bound :: p.1
    case WholeJob(job) =>
      set m <- tb.bound | w.home(m) == n && w.jobOf(m) == job
    case _ =>
      var d := Dest(w, k);
      if d.Some? && w.home(d.value) == n && d.value in tb.bound then {d.value} else {}
  }

  /** Dispatchers n sends a copy to. Point-to-point routing does not look at the
      dispatched bit; it falls back on a D2D entry for the destination's node whenever it
      cannot deliver locally. */
  function Remotes(w: World, tb: Tables, n: Node, k: Kind, dispatched: bool): set<Node> {
    match k
    case Subscribers(key) =>
      if dispatched then {}
      else set p <- tb.subs | p.0 == key && w.home(p.1) != n && (n, w.home(p.1)) in tb.links :: w.home(p.1)
    case WholeJob(job) =>
      if dispatched then {} else set r <- w.nodes | r != n && (n, r) in tb.links
    case _ =>
      var d := Dest(w, k);
      if d.None? || (w.home(d.value) == n && d.value in tb.bound) || (n, w.home(d.value)) !in tb.links then {}
      else {w.home(d.value)}
  }

  /** A local subscriber without a D2M entry is unsubscribed. */
  function Pruned(w: World, tb: Tables, n: Node, k: Kind): Tables {
    if k.Subscribers? then
      tb.(subs := set p <- tb.subs | !(p.0 == k.key && w.home(p.1) == n && p.1 !in tb.bound))
    else tb
  }

  function Copies(id: nat, k: Kind, rs: set<Node>, hops: nat): set<Packet> {
    set r <- rs :: Packet(id, k, r, true, hops + 1)
  }

  function Handed(id: nat, ms: set<Model>): set<(nat, Model)> {
    set m <- ms :: (id, m)
  }

  function Handle(w: World, s: Net, n: Node, id: nat, k: Kind, dispatched: bool, hops: nat): Net {
    s.(tables := Pruned(w, s.tables, n, k),
       flight := s.flight + multiset(Copies(id, k, Remotes(w, s.tables, n, k, dispatched), hops)),
       log := s.log + multiset(Handed(id, Locals(w, s.tables, n, k))),
       handled := s.handled + {(id, n)})
  }

  /** A model publishes at its dispatcher; a copy arrives; tables and subscriptions change. */
  datatype Action = Publish(n: Node, kind: Kind) | Arrive(p: Packet) | Retable(tables: Tables)

  predicate NoSelfLink(tb: Tables) {
    forall l :: l in tb.links ==> l.0 != l.1
  }

  predicate Enabled(s: Net, a: Action) {
    match a
    case Publish(_, _) => true
    case Arrive(p) => p in s.flight
    case Retable(tb) => NoSelfLink(tb)
  }

  function Step(w: World, s: Net, a: Action): Net
    requires Enabled(s, a)
  {
    match a
    case Publish(n, k) => Handle(w, s.(published := s.published + [Pub(n, k)]), n, |s.published|, k, false, 0)
    case Arrive(p) => Handle(w, s.(flight := s.flight - multiset{p}), p.to, p.id, p.kind, p.dispatched, p.hops)
    case Retable(tb) => s.(tables := tb)
  }

  function Start(tb: Tables): Net {
    Net(tb, [], multiset{}, multiset{}, {})
  }

  // ---------------------------------------------------------------------------
  // At most once, and never a second hop

  predicate FlightInv(w: World, s: Net) {
    forall p :: p in s.flight ==>
      && s.flight[p] == 1
      && p.id < |s.published| && p.kind == s.published[p.id].kind
      && p.dispatched && p.hops == 1
      && (p.id, p.to) !in s.handled
      && (PointToPoint(p.kind) ==> Dest(w, p.kind).Some? && p.to == w.home(Dest(w, p.kind).value))
  }

  predicate LogInv(w: World, s: Net) {
    forall c :: c in s.log ==>
      && s.log[c] == 1
      && c.0 < |s.published|
      && (c.0, w.home(c.1)) in s.handled
      && (PointToPoint(s.published[c.0].kind) ==> Dest(w, s.published[c.0].kind) == Some(c.1))
  }

  predicate Inv(w: World, s: Net) {
    && NoSelfLink(s.tables)
    && FlightInv(w, s)
    && LogInv(w, s)
    && (forall h :: h in s.handled ==> h.0 < |s.published|)
  }

  /** A copy that came over a dispatcher link is delivered or dropped, never sent on. */
  lemma ArriveNeverForwards(w: World, s: Net, p: Packet)
    requires Inv(w, s) && p in s.flight
    ensures Remotes(w, s.tables, p.to, p.kind, p.dispatched) == {}
    ensures Step(w, s, Arrive(p)).flight == s.flight - multiset{p}
  {
    var rs := Remotes(w, s.tables, p.to, p.kind, p.dispatched);
    assert rs == {};
    assert Copies(p.id, p.kind, rs, p.hops) == {};
  }

  lemma LocalsLiveHere(w: World, tb: Tables, n: Node, k: Kind, m: Model)
    requires m in Locals(w, tb, n, k)
    ensures w.home(m) == n && m in tb.bound && (PointToPoint(k) ==> Dest(w, k) == Some(m))
  {
  }

  lemma RemotesAreElsewhere(w: World, tb: Tables, n: Node, k: Kind, r: Node)
    requires NoSelfLink(tb) && r in Remotes(w, tb, n, k, false)
    ensures r != n && (n, r) in tb.links
            && (PointToPoint(k) ==> Dest(w, k).Some? && r == w.home(Dest(w, k).value))
  {
  }

  lemma PublishKeepsInv(w: World, s: Net, n: Node, k: Kind)
    requires Inv(w, s)
    ensures Inv(w, Step(w, s, Publish(n, k)))
  {
    var s', id := Step(w, s, Publish(n, k)), |s.published|;
    forall p | p in s'.flight
      ensures s'.flight[p] == 1 && p.id < |s'.published| && p.kind == s'.published[p.id].kind
              && p.dispatched && p.hops == 1 && (p.id, p.to) !in s'.handled
              && (PointToPoint(p.kind) ==> Dest(w, p.kind).Some? && p.to == w.home(Dest(w, p.kind).value))
    {
      if p !in s.flight {
        RemotesAreElsewhere(w, s.tables, n, k, p.to);
      }
    }
    forall c | c in s'.log
      ensures s'.log[c] == 1 && c.0 < |s'.published| && (c.0, w.home(c.1)) in s'.handled
              && (PointToPoint(s'.published[c.0].kind) ==> Dest(w, s'.published[c.0].kind) == Some(c.1))
    {
      if c !in s.log {
        LocalsLiveHere(w, s.tables, n, k, c.1);
      }
    }
  }

  lemma ArriveKeepsInv(w: World, s: Net, p: Packet)
    requires Inv(w, s) && p in s.flight
    ensures Inv(w, Step(w, s, Arrive(p)))
  {
    var s' := Step(w, s, Arrive(p));
    ArriveNeverForwards(w, s, p);
    forall q | q in s'.flight
      ensures (q.id, q.to) !in s'.handled
    {
      // a second packet for the same message and node would be equal to p
      assert q in s.flight && q != p;
    }
    forall c | c in s'.log
      ensures s'.log[c] == 1 && c.0 < |s'.published| && (c.0, w.home(c.1)) in s'.handled
              && (PointToPoint(s'.published[c.0].kind) ==> Dest(w, s'.published[c.0].kind) == Some(c.1))
    {
      if c.0 == p.id && c.1 in Locals(w, s.tables, p.to, p.kind) {
        LocalsLiveHere(w, s.tables, p.to, p.kind, c.1);
        assert c !in s.log;
      }
    }
  }

  lemma StepKeepsInv(w: World, s: Net, a: Action)
    requires Inv(w, s) && Enabled(s, a)
    ensures Inv(w, Step(w, s, a))
  {
    match a
    case Publish(n, k) => PublishKeepsInv(w, s, n, k);
    case Arrive(p) => ArriveKeepsInv(w, s, p);
    case Retable(tb) =>
  }

  predicate Runnable(w: World, s: Net, run: seq<Action>)
    decreases |run|
  {
    run == [] || (Enabled(s, run[0]) && Runnable(w, Step(w, s, run[0]), run[1..]))
  }

  function Run(w: World, s: Net, run: seq<Action>): Net
    requires Runnable(w, s, run)
    decreases |run|
  {
    if run == [] then s else Run(w, Step(w, s, run[0]), run[1..])
  }

  ghost predicate Preserved(w: World, P: Net -> bool, ok: Action -> bool) {
    forall x, a :: P(x) && ok(a) && Enabled(x, a) ==> P(Step(w, x, a))
  }

  /** What every permitted step keeps, every run keeps. */
  lemma {:induction false} RunInduction(w: World, P: Net -> bool, ok: Action -> bool, s: Net, run: seq<Action>)
    requires P(s) && Preserved(w, P, ok) && Runnable(w, s, run)
    requires forall i :: 0 <= i < |run| ==> ok(run[i])
    ensures P(Run(w, s, run))
    decreases |run|
  {
    if run != [] {
      RunInduction(w, P, ok, Step(w, s, run[0]), run[1..]);
    }
  }

  lemma RunKeepsInv(w: World, s: Net, run: seq<Action>)
    requires Inv(w, s) && Runnable(w, s, run)
    ensures Inv(w, Run(w, s, run))
  {
    var P, ok := (x: Net) => Inv(w, x), (a: Action) => true;
    forall x, a | P(x) && Enabled(x, a)
      ensures P(Step(w, x, a))
    {
      StepKeepsInv(w, x, a);
    }
    RunInduction(w, P, ok, s, run);
  }

  /** In every run, over any mesh and under any changes of tables and subscriptions: no
      model gets two copies of a message, every copy between dispatchers is on its first
      hop, and a point-to-point message reaches nobody but its addressee. */
  lemma AtMostOnce(w: World, tb: Tables, run: seq<Action>, id: nat, m: Model)
    requires NoSelfLink(tb) && Runnable(w, Start(tb), run)
    ensures var s := Run(w, Start(tb), run);
            && s.log[(id, m)] <= 1
            && (forall p :: p in s.flight ==> p.hops == 1 && p.dispatched)
            && ((id, m) in s.log ==>
                  && id < |s.published|
                  && (PointToPoint(s.published[id].kind) ==> Dest(w, s.published[id].kind) == Some(m)))
  {
    RunKeepsInv(w, Start(tb), run);
    var s := Run(w, Start(tb), run);
    if (id, m) in s.log {
      assert s.log[(id, m)] == 1;
    }
  }

  // ---------------------------------------------------------------------------
  // Exactly once

  predicate Static(run: seq<Action>) {
    forall i :: 0 <= i < |run| ==> !run[i].Retable?
  }

  /** Registered models live on dispatcher nodes. */
  predicate Housed(w: World, tb: Tables) {
    forall m :: m in tb.bound ==> w.home(m) in w.nodes
  }

  predicate Reaches(tb: Tables, o: Node, n: Node) {
    o == n || (o, n) in tb.links
  }

  /** Model m is entitled to message (o, k): it is addressed and registered, and the
      publishing dispatcher is the model's own or has a link to it. */
  predicate Owed(w: World, tb: Tables, p: Pub, m: Model) {
    m in Locals(w, tb, w.home(m), p.kind) && Reaches(tb, p.origin, w.home(m))
  }

  function Copy(s: Net, id: nat, n: Node): Packet
    requires id < |s.published|
  {
    Packet(id, s.published[id].kind, n, true, 1)
  }

  predicate SameTables(tb: Tables, now: Tables) {
    && now.bound == tb.bound && now.links == tb.links && now.subs <= tb.subs
    && forall p :: p in tb.subs && p.1 in tb.bound ==> p in now.subs
  }

  ghost predicate Covered(w: World, tb: Tables, s: Net) {
    forall id: nat, m: Model :: id < |s.published| && Owed(w, tb, s.published[id], m) ==>
      (id, m) in s.log || Copy(s, id, w.home(m)) in s.flight
  }

  predicate OnlyOwed(w: World, tb: Tables, s: Net) {
    forall c :: c in s.log ==> c.0 < |s.published| && Owed(w, tb, s.published[c.0], c.1)
  }

  predicate Linked(tb: Tables, s: Net) {
    forall p :: p in s.flight ==> p.id < |s.published| && (s.published[p.id].origin, p.to) in tb.links
  }

  ghost predicate Accounted(w: World, tb: Tables, s: Net) {
    Covered(w, tb, s) && OnlyOwed(w, tb, s) && Linked(tb, s)
  }

  ghost predicate ExactInv(w: World, tb: Tables, s: Net) {
    Inv(w, s) && Housed(w, tb) && SameTables(tb, s.tables) && Accounted(w, tb, s)
  }

  /** Pruned subscriptions make no difference to registered models. */
  lemma LocalsSame(w: World, tb: Tables, now: Tables, n: Node, k: Kind)
    requires SameTables(tb, now)
    ensures Locals(w, now, n, k) == Locals(w, tb, n, k)
  {
  }

  lemma PrunedSame(w: World, tb: Tables, now: Tables, n: Node, k: Kind)
    requires SameTables(tb, now)
    ensures SameTables(tb, Pruned(w, now, n, k))
  {
  }

  lemma OwedElsewhereIsRemote(w: World, tb: Tables, now: Tables, n: Node, k: Kind, m: Model)
    requires Housed(w, tb) && SameTables(tb, now) && Owed(w, tb, Pub(n, k), m) && w.home(m) != n
    ensures w.home(m) in Remotes(w, now, n, k, false)
  {
    if k.Subscribers? {
      assert (k.key, m) in now.subs;
    }
  }

  /** The freshly published message: handed over at once, or on its way. */
  lemma NewIsCovered(w: World, tb: Tables, s: Net, n: Node, k: Kind, m: Model)
    requires Housed(w, tb) && SameTables(tb, s.tables) && Owed(w, tb, Pub(n, k), m)
    ensures var s', id := Step(w, s, Publish(n, k)), |s.published|;
            (id, m) in s'.log || Packet(id, k, w.home(m), true, 1) in s'.flight
  {
    var id := |s.published|;
    if w.home(m) == n {
      LocalsSame(w, tb, s.tables, n, k);
      assert (id, m) in Handed(id, Locals(w, s.tables, n, k));
    } else {
      OwedElsewhereIsRemote(w, tb, s.tables, n, k, m);
      assert Packet(id, k, w.home(m), true, 1) in Copies(id, k, Remotes(w, s.tables, n, k, false), 0);
    }
  }

  /** Earlier messages keep their copies. */
  lemma OldStayCovered(w: World, s: Net, n: Node, k: Kind, c: (nat, Model), p: Packet)
    requires c in s.log || p in s.flight
    ensures var s' := Step(w, s, Publish(n, k)); c in s'.log || p in s'.flight
  {
  }

  lemma PublishIsOwed(w: World, tb: Tables, s: Net, n: Node, k: Kind, c: (nat, Model))
    requires ExactInv(w, tb, s) && c in Step(w, s, Publish(n, k)).log
    ensures var s' := Step(w, s, Publish(n, k)); c.0 < |s'.published| && Owed(w, tb, s'.published[c.0], c.1)
  {
    if c !in s.log {
      assert c in Handed(|s.published|, Locals(w, s.tables, n, k));
      LocalsLiveHere(w, s.tables, n, k, c.1);
      LocalsSame(w, tb, s.tables, n, k);
    }
  }

  lemma PublishIsLinked(w: World, tb: Tables, s: Net, n: Node, k: Kind, p: Packet)
    requires ExactInv(w, tb, s) && p in Step(w, s, Publish(n, k)).flight
    ensures var s' := Step(w, s, Publish(n, k)); p.id < |s'.published| && (s'.published[p.id].origin, p.to) in tb.links
  {
    if p !in s.flight {
      assert p in Copies(|s.published|, k, Remotes(w, s.tables, n, k, false), 0);
      RemotesAreElsewhere(w, s.tables, n, k, p.to);
    }
  }

  lemma PublishCovers(w: World, tb: Tables, s: Net, n: Node, k: Kind)
    requires Housed(w, tb) && SameTables(tb, s.tables) && Covered(w, tb, s)
    ensures Covered(w, tb, Step(w, s, Publish(n, k)))
  {
    var s' := Step(w, s, Publish(n, k));
    forall id: nat, m: Model | id < |s'.published| && Owed(w, tb, s'.published[id], m)
      ensures (id, m) in s'.log || Copy(s', id, w.home(m)) in s'.flight
    {
      if id < |s.published| {
        assert s'.published[id] == s.published[id];
        OldStayCovered(w, s, n, k, (id, m), Copy(s, id, w.home(m)));
      } else {
        NewIsCovered(w, tb, s, n, k, m);
      }
    }
  }

  lemma PublishAccounts(w: World, tb: Tables, s: Net, n: Node, k: Kind)
    requires ExactInv(w, tb, s)
    ensures Accounted(w, tb, Step(w, s, Publish(n, k)))
  {
    PublishCovers(w, tb, s, n, k);
    forall c | c in Step(w, s, Publish(n, k)).log {
      PublishIsOwed(w, tb, s, n, k, c);
    }
    forall p | p in Step(w, s, Publish(n, k)).flight {
      PublishIsLinked(w, tb, s, n, k, p);
    }
  }

  lemma ArriveCovers(w: World, tb: Tables, s: Net, p: Packet)
    requires ExactInv(w, tb, s) && p in s.flight
    ensures Covered(w, tb, Step(w, s, Arrive(p)))
  {
    var s' := Step(w, s, Arrive(p));
    forall id: nat, m: Model | id < |s'.published| && Owed(w, tb, s'.published[id], m)
      ensures (id, m) in s'.log || Copy(s', id, w.home(m)) in s'.flight
    {
      CopyStays(w, tb, s, p, id, m);
    }
  }

  /** A copy owed and not handed over is still under way, or is the one that arrives. */
  lemma CopyStays(w: World, tb: Tables, s: Net, p: Packet, id: nat, m: Model)
    requires Inv(w, s) && SameTables(tb, s.tables) && p in s.flight
    requires id < |s.published| && Owed(w, tb, s.published[id], m)
    requires (id, m) in s.log || Copy(s, id, w.home(m)) in s.flight
    ensures var s' := Step(w, s, Arrive(p)); (id, m) in s'.log || Copy(s', id, w.home(m)) in s'.flight
  {
    ArriveNeverForwards(w, s, p);
    if (id, m) !in s.log && Copy(s, id, w.home(m)) == p {
      ArrivalHandsOver(w, tb, s, p, m);
    }
  }

  lemma ArriveAccounts(w: World, tb: Tables, s: Net, p: Packet)
    requires ExactInv(w, tb, s) && p in s.flight
    ensures Accounted(w, tb, Step(w, s, Arrive(p)))
  {
    ArriveCovers(w, tb, s, p);
    ArriveIsOwed(w, tb, s, p);
    ArriveNeverForwards(w, s, p);
  }

  lemma ArriveIsOwed(w: World, tb: Tables, s: Net, p: Packet)
    requires ExactInv(w, tb, s) && p in s.flight
    ensures OnlyOwed(w, tb, Step(w, s, Arrive(p)))
  {
    var s' := Step(w, s, Arrive(p));
    LocalsSame(w, tb, s.tables, p.to, p.kind);
    forall c | c in s'.log
      ensures c.0 < |s'.published| && Owed(w, tb, s'.published[c.0], c.1)
    {
      if c !in s.log {
        LocalsLiveHere(w, s.tables, p.to, p.kind, c.1);
      }
    }
  }

  lemma StepAccounts(w: World, tb: Tables, s: Net, a: Action)
    requires ExactInv(w, tb, s) && Enabled(s, a) && !a.Retable?
    ensures ExactInv(w, tb, Step(w, s, a))
  {
    StepKeepsInv(w, s, a);
    if a.Publish? {
      PublishAccounts(w, tb, s, a.n, a.kind);
      PrunedSame(w, tb, s.tables, a.n, a.kind);
    } else {
      ArriveAccounts(w, tb, s, a.p);
      PrunedSame(w, tb, s.tables, a.p.to, a.p.kind);
    }
  }

  lemma RunAccounts(w: World, tb: Tables, s: Net, run: seq<Action>)
    requires ExactInv(w, tb, s) && Static(run) && Runnable(w, s, run)
    ensures ExactInv(w, tb, Run(w, s, run))
  {
    var P, ok := (x: Net) => ExactInv(w, tb, x), (a: Action) => !a.Retable?;
    forall x, a | P(x) && ok(a) && Enabled(x, a)
      ensures P(Step(w, x, a))
    {
      StepAccounts(w, tb, x, a);
    }
    RunInduction(w, P, ok, s, run);
  }

  /** With the tables left alone: once no copy of a message is under way, each model has
      got exactly one copy if it is owed the message and none otherwise. */
  lemma ExactlyOnce(w: World, tb: Tables, run: seq<Action>, id: nat, m: Model)
    requires NoSelfLink(tb) && Housed(w, tb) && Static(run) && Runnable(w, Start(tb), run)
    requires var s := Run(w, Start(tb), run);
             id < |s.published| && forall p :: p in s.flight ==> p.id != id
    ensures var s := Run(w, Start(tb), run);
            s.log[(id, m)] == if Owed(w, tb, s.published[id], m) then 1 else 0
  {
    RunAccounts(w, tb, Start(tb), run);
    var s := Run(w, Start(tb), run);
    if (id, m) in s.log {
      assert s.log[(id, m)] == 1;
    } else {
      assert Owed(w, tb, s.published[id], m) ==> Copy(s, id, w.home(m)) in s.flight;
    }
  }

  lemma StartAccounts(w: World, tb: Tables)
    requires NoSelfLink(tb) && Housed(w, tb)
    ensures ExactInv(w, tb, Start(tb))
  {
  }

  lemma ArrivalHandsOver(w: World, tb: Tables, s: Net, p: Packet, m: Model)
    requires SameTables(tb, s.tables) && p in s.flight && m in Locals(w, tb, p.to, p.kind)
    ensures (p.id, m) in Step(w, s, Arrive(p)).log
  {
    LocalsSame(w, tb, s.tables, p.to, p.kind);
    assert (p.id, m) in Handed(p.id, Locals(w, s.tables, p.to, p.kind));
  }

  lemma NotHandedHere(w: World, tb: Tables, n: Node, k: Kind, m: Model)
    requires w.home(m) != n
    ensures (0, m) !in Step(w, Start(tb), Publish(n, k)).log
  {
    if m in Locals(w, tb, n, k) {
      LocalsLiveHere(w, tb, n, k, m);
    }
  }

  /** A copy does travel: publishing the first message sends one to the dispatcher of every
      entitled model elsewhere, and its arrival hands it over. */
  lemma FirstCopyTravels(w: World, tb: Tables, n: Node, k: Kind, m: Model)
    requires NoSelfLink(tb) && Housed(w, tb) && Owed(w, tb, Pub(n, k), m) && w.home(m) != n
    ensures var s := Step(w, Start(tb), Publish(n, k));
            var p := Packet(0, k, w.home(m), true, 1);
            && ExactInv(w, tb, s) && (0, m) !in s.log
            && p in s.flight && (0, m) in Step(w, s, Arrive(p)).log
  {
    StartAccounts(w, tb);
    StepAccounts(w, tb, Start(tb), Publish(n, k));
    NewIsCovered(w, tb, Start(tb), n, k, m);
    NotHandedHere(w, tb, n, k, m);
    ArrivalHandsOver(w, tb, Step(w, Start(tb), Publish(n, k)), Packet(0, k, w.home(m), true, 1), m);
  }

  predicate Complete(w: World, tb: Tables) {
    forall a, b :: a in w.nodes && b in w.nodes && a != b ==> (a, b) in tb.links
  }

  /** In a complete mesh every registered subscriber, and every registered model of the
      job, gets a published message exactly once. */
  lemma CompleteMeshDelivers(w: World, tb: Tables, run: seq<Action>, id: nat, m: Model)
    requires NoSelfLink(tb) && Housed(w, tb) && Complete(w, tb) && Static(run) && Runnable(w, Start(tb), run)
    requires var s := Run(w, Start(tb), run);
             id < |s.published| && s.published[id].origin in w.nodes && forall p :: p in s.flight ==> p.id != id
    requires m in tb.bound
    ensures var s := Run(w, Start(tb), run);
            var k := s.published[id].kind;
            && (k.Subscribers? ==> s.log[(id, m)] == if (k.key, m) in tb.subs then 1 else 0)
            && (k.WholeJob? ==> s.log[(id, m)] == if w.jobOf(m) == k.job then 1 else 0)
            && (PointToPoint(k) ==> s.log[(id, m)] == if Dest(w, k) == Some(m) then 1 else 0)
  {
    ExactlyOnce(w, tb, run, id, m);
    var s := Run(w, Start(tb), run);
    var p := s.published[id];
    assert Reaches(tb, p.origin, w.home(m));
    if p.kind.Subscribers? && (p.kind.key, m) in tb.subs {
      assert m in Locals(w, tb, w.home(m), p.kind);
    }
  }

  /** Arrivals alone empty the network: each removes one packet. */
  lemma ArrivalsDrain(w: World, s: Net, p: Packet)
    requires Inv(w, s) && p in s.flight
    ensures |Step(w, s, Arrive(p)).flight| == |s.flight| - 1
  {
    ArriveNeverForwards(w, s, p);
    assert s.flight == (s.flight - multiset{p}) + multiset{p};
  }

  // ---------------------------------------------------------------------------
  // Why point-to-point routing needs D2D tables without self entries

  /** At the addressee's own dispatcher a point-to-point message is sent on exactly when
      the addressee is not registered and the dispatcher has a D2D entry for itself. */
  lemma ForwardsAtHomeIff(w: World, tb: Tables, k: Kind, dispatched: bool)
    requires PointToPoint(k) && Dest(w, k).Some?
    ensures var n := w.home(Dest(w, k).value);
            Remotes(w, tb, n, k, dispatched) != {} <==> Dest(w, k).value !in tb.bound && (n, n) in tb.links
  {
  }

  /** A message at its unregistered addressee's dispatcher, which has an entry for itself. */
  predicate Circling(w: World, s: Net, p: Packet) {
    && PointToPoint(p.kind) && Dest(w, p.kind).Some? && p.to == w.home(Dest(w, p.kind).value)
    && p in s.flight && p.dispatched
    && Dest(w, p.kind).value !in s.tables.bound && (p.to, p.to) in s.tables.links
  }

  lemma SelfLinkSendsOn(w: World, s: Net, p: Packet)
    requires Circling(w, s, p)
    ensures var s' := Step(w, s, Arrive(p));
            Circling(w, s', p.(hops := p.hops + 1)) && s'.log == s.log
  {
    var rs, ms := Remotes(w, s.tables, p.to, p.kind, true), Locals(w, s.tables, p.to, p.kind);
    assert p.(hops := p.hops + 1) in Copies(p.id, p.kind, rs, p.hops) by {
      assert p.to in rs;
    }
    assert ms == {};
    assert Handed(p.id, ms) == {};
  }

  lemma RunFirst(w: World, s: Net, a: Action, rest: seq<Action>)
    requires Enabled(s, a) && Runnable(w, Step(w, s, a), rest)
    ensures Runnable(w, s, [a] + rest) && Run(w, s, [a] + rest) == Run(w, Step(w, s, a), rest)
  {
    assert ([a] + rest)[1..] == rest;
  }

  /** Then the message circulates for ever: after any number of arrivals it is again in
      flight, that many hops older, and nothing has been delivered. */
  lemma {:induction false} SelfLinkLoops(w: World, s: Net, p: Packet, times: nat)
    returns (run: seq<Action>, q: Packet)
    requires Circling(w, s, p)
    ensures |run| == times && Runnable(w, s, run)
    ensures q.id == p.id && q.kind == p.kind && q.hops == p.hops + times
    ensures Circling(w, Run(w, s, run), q) && Run(w, s, run).log == s.log
    decreases times
  {
    run, q := [], p;
    if times > 0 {
      SelfLinkSendsOn(w, s, p);
      var s', p' := Step(w, s, Arrive(p)), p.(hops := p.hops + 1);
      var rest;
      rest, q := SelfLinkLoops(w, s', p', times - 1);
      run := [Arrive(p)] + rest;
      RunFirst(w, s, Arrive(p), rest);
    }
  }
}
