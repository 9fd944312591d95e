/**
 * One dispatcher: `PubSubDispatch::process` picks a route by flag, sets the dispatched
 * bit and hands copies to connection handlers found in the D2M and D2D tables. What it
 * sends is shown to be what the mesh model says this dispatcher does.
 */
module Dispatch {
  import opened Mesh
  import Frames

  type Handler = int

  datatype Flags = Flags(masterOnly: bool, p2p: bool, job: bool, p2ch: bool, nowhere: bool)

  datatype Route = Route(peer: Model, node: Node)

  /** What the database and the connection table answer for one message. */
  datatype Answers = Answers(
    local: seq<Model>,        // subscribers on this node
    remote: seq<Node>,        // other nodes with subscribers
    peer: seq<Route>,         // route of the destination peer
    master: seq<Route>,       // route of the job master
    members: seq<Model>,      // registered models of the job, in table order
    others: seq<Node>,        // all other dispatchers
    connection: seq<Handler>) // handlers of the named connection

  function SendsTo(table: map<nat, Handler>, ids: seq<nat>): seq<Handler> {
    if ids == [] then []
    else (if ids[0] in table then [table[ids[0]]] else []) + SendsTo(table, ids[1..])
  }

  function Missing(table: map<nat, Handler>, ids: seq<nat>): seq<nat> {
    if ids == [] then []
    else (if ids[0] in table then [] else [ids[0]]) + Missing(table, ids[1..])
  }

  /** Local delivery if this is the node and the model is registered, else the D2D entry. */
  function OneRoute(node: Node, d2m: map<nat, Handler>, d2d: map<nat, Handler>, routes: seq<Route>): seq<Handler> {
    if |routes| != 1 then []
    else if routes[0].node == node && routes[0].peer in d2m then [d2m[routes[0].peer]]
    else if routes[0].node in d2d then [d2d[routes[0].node]]
    else []
  }

  function Sends(node: Node, d2m: map<nat, Handler>, d2d: map<nat, Handler>,
                 f: Flags, dispatched: bool, q: Answers): seq<Handler> {
    if f.masterOnly then OneRoute(node, d2m, d2d, q.master)
    else if f.p2p then OneRoute(node, d2m, d2d, q.peer)
    else if f.job then SendsTo(d2m, q.members) + (if dispatched then [] else SendsTo(d2d, q.others))
    else if f.p2ch then q.connection
    else if f.nowhere then []
    else SendsTo(d2m, q.local) + (if dispatched then [] else SendsTo(d2d, q.remote))
  }

  /** The dispatched bit with which copies leave. */
  function BitAfter(f: Flags, dispatched: bool): bool {
    dispatched || f.masterOnly || f.p2p || f.job || f.p2ch || !f.nowhere
  }

  /** The models a message makes this dispatcher unsubscribe. */
  function Dropped(d2m: map<nat, Handler>, f: Flags, q: Answers): seq<Model> {
    if f.masterOnly || f.p2p || f.job || f.p2ch || f.nowhere then [] else Missing(d2m, q.local)
  }

  lemma {:induction false} SendsToSnoc(table: map<nat, Handler>, ids: seq<nat>, i: nat)
    requires i < |ids|
    ensures SendsTo(table, ids[..i + 1]) == SendsTo(table, ids[..i]) + (if ids[i] in table then [table[ids[i]]] else [])
    ensures Missing(table, ids[..i + 1]) == Missing(table, ids[..i]) + (if ids[i] in table then [] else [ids[i]])
    decreases i
  {
    if i > 0 {
      SendsToSnoc(table, ids[1..], i - 1);
      assert ids[..i + 1][1..] == ids[1..][..i];
      assert ids[..i][1..] == ids[1..][..i - 1];
    } else {
      assert ids[..1][1..] == [];
    }
  }

  class PubSubDispatch {
    const node: Node
    var d2m: map<nat, Handler>
    var d2d: map<nat, Handler>
    var outbox: seq<Handler>
    var unsubscribed: seq<Model>

    constructor (n: Node)
      ensures node == n && d2m == map[] && d2d == map[] && outbox == [] && unsubscribed == []
    {
      node, d2m, d2d, outbox, unsubscribed := n, map[], map[], [], [];
    }

    /** The routing part of process. The returned bit is the header's dispatched field as
        it stands when the copies are encoded. */
    method Process(f: Flags, dispatched: bool, q: Answers) returns (bit: bool)
      modifies this`outbox, this`unsubscribed
      ensures bit == BitAfter(f, dispatched)
      ensures outbox == old(outbox) + Sends(node, d2m, d2d, f, dispatched, q)
      ensures unsubscribed == old(unsubscribed) + Dropped(d2m, f, q)
      ensures !f.masterOnly && !f.p2p && !f.job && f.p2ch ==> bit && outbox == old(outbox) + q.connection
      ensures !f.masterOnly && !f.p2p && !f.job && !f.p2ch && f.nowhere ==>
        bit == dispatched && outbox == old(outbox) && unsubscribed == old(unsubscribed)
    {
      bit := true;
      if f.masterOnly {
        RouteToOne(q.master);
      } else if f.p2p {
        RouteToOne(q.peer);
      } else if f.job {
        RouteToJob(dispatched, q.members, q.others);
      } else if f.p2ch {
        RouteToConnection(q.connection);
      } else if f.nowhere {
        bit := dispatched;
      } else {
        RouteToSubscriber(dispatched, q.local, q.remote);
      }
    }

    /** route_to_subscriber: every local subscriber with a handler, then, for a message not
        yet dispatched, every remote node with a handler; the rest is unsubscribed. */
    method RouteToSubscriber(dispatched: bool, local: seq<Model>, remote: seq<Node>)
      modifies this`outbox, this`unsubscribed
      ensures outbox == old(outbox) + (SendsTo(d2m, local) + if dispatched then [] else SendsTo(d2d, remote))
      ensures unsubscribed == old(unsubscribed) + Missing(d2m, local)
    {
      RouteLocal(local);
      if !dispatched {
        SendAll(d2d, remote);
        Frames.Assoc(old(outbox), SendsTo(d2m, local), SendsTo(d2d, remote));
      } else {
        assert SendsTo(d2m, local) + [] == SendsTo(d2m, local);
      }
    }

    /** route_to_job: every registered model of the job here, then all other dispatchers. */
    method RouteToJob(dispatched: bool, members: seq<Model>, others: seq<Node>)
      modifies this`outbox
      ensures outbox == old(outbox) + (SendsTo(d2m, members) + if dispatched then [] else SendsTo(d2d, others))
    {
      SendAll(d2m, members);
      if !dispatched {
        SendAll(d2d, others);
        Frames.Assoc(old(outbox), SendsTo(d2m, members), SendsTo(d2d, others));
      } else {
        assert SendsTo(d2m, members) + [] == SendsTo(d2m, members);
      }
    }

    method RouteLocal(local: seq<Model>)
      modifies this`outbox, this`unsubscribed
      ensures outbox == old(outbox) + SendsTo(d2m, local)
      ensures unsubscribed == old(unsubscribed) + Missing(d2m, local)
    {
      var i := 0;
      while i < |local|
        invariant 0 <= i <= |local|
        invariant outbox == old(outbox) + SendsTo(d2m, local[..i])
        invariant unsubscribed == old(unsubscribed) + Missing(d2m, local[..i])
      {
        SendsToSnoc(d2m, local, i);
        if local[i] in d2m {
          outbox := outbox + [d2m[local[i]]];
        } else {
          unsubscribed := unsubscribed + [local[i]];
        }
        i := i + 1;
      }
      assert local[..i] == local;
    }

    method SendAll(table: map<nat, Handler>, ids: seq<nat>)
      modifies this`outbox
      ensures outbox == old(outbox) + SendsTo(table, ids)
    {
      var i := 0;
      while i < |ids|
        invariant 0 <= i <= |ids|
        invariant outbox == old(outbox) + SendsTo(table, ids[..i])
      {
        SendsToSnoc(table, ids, i);
        if ids[i] in table {
          outbox := outbox + [table[ids[i]]];
        }
        i := i + 1;
      }
      assert ids[..i] == ids;
    }

    /** route_to_connection: every handler of the connection, whatever its kind. */
    method RouteToConnection(handlers: seq<Handler>)
      modifies this`outbox
      ensures outbox == old(outbox) + handlers
    {
      var i := 0;
      while i < |handlers|
        invariant 0 <= i <= |handlers|
        invariant outbox == old(outbox) + handlers[..i]
      {
        outbox := outbox + [handlers[i]];
        i := i + 1;
      }
      assert handlers[..i] == handlers;
    }

    /** route_to_master and route_to_peer: a route that is missing or not unique is none. */
    method RouteToOne(routes: seq<Route>)
      modifies this`outbox
      ensures outbox == old(outbox) + OneRoute(node, d2m, d2d, routes)
      ensures |routes| != 1 ==> outbox == old(outbox)
    {
      if |routes| != 1 { return; }
      if routes[0].node == node && routes[0].peer in d2m {
        outbox := outbox + [d2m[routes[0].peer]];
      } else if routes[0].node in d2d {
        outbox := outbox + [d2d[routes[0].node]];
      }
    }
  }

  // ---------------------------------------------------------------------------
  // Flags

  /** A message for a connection goes to each handler of it as often as it is listed, and to
      nobody else, whatever the dispatched bit. */
  lemma ConnectionGetsAll(node: Node, d2m: map<nat, Handler>, d2d: map<nat, Handler>,
                          f: Flags, dispatched: bool, q: Answers, h: Handler)
    requires !f.masterOnly && !f.p2p && !f.job && f.p2ch && Distinct(q.connection)
    ensures multiset(Sends(node, d2m, d2d, f, dispatched, q))[h] == if h in q.connection then 1 else 0
    ensures BitAfter(f, dispatched) && Dropped(d2m, f, q) == []
  {
    CountDistinct(q.connection, h);
  }

  lemma {:induction false} CountDistinct(s: seq<Handler>, h: Handler)
    requires Distinct(s)
    ensures multiset(s)[h] == if h in s then 1 else 0
  {
    if s != [] {
      CountDistinct(s[1..], h);
      assert s == [s[0]] + s[1..];
    }
  }

  /** A message for nowhere goes nowhere. */
  lemma NowhereIsSilent(node: Node, d2m: map<nat, Handler>, d2d: map<nat, Handler>,
                        f: Flags, dispatched: bool, q: Answers)
    requires !f.masterOnly && !f.p2p && !f.job && !f.p2ch && f.nowhere
    ensures Sends(node, d2m, d2d, f, dispatched, q) == [] && Dropped(d2m, f, q) == []
    ensures BitAfter(f, dispatched) == dispatched
  {
  }

  /** Exactly the listed local subscribers without a registration are unsubscribed, and only
      by a message for subscribers. */
  lemma DroppedIff(d2m: map<nat, Handler>, f: Flags, q: Answers, m: Model)
    ensures m in Dropped(d2m, f, q) <==>
              && !f.masterOnly && !f.p2p && !f.job && !f.p2ch && !f.nowhere
              && m in q.local && m !in d2m
  {
    MissingMembers(d2m, q.local, m);
  }

  /** A master or peer route that is missing or ambiguous drops the message. */
  lemma OnlyUniqueRoutes(node: Node, d2m: map<nat, Handler>, d2d: map<nat, Handler>,
                         f: Flags, dispatched: bool, q: Answers)
    requires (f.masterOnly && |q.master| != 1) || (!f.masterOnly && f.p2p && |q.peer| != 1)
    ensures Sends(node, d2m, d2d, f, dispatched, q) == []
  {
  }

  /** With several flags set, only the one tested first counts: the message is treated as if
      it had no other. */
  lemma FirstFlagDecides(node: Node, d2m: map<nat, Handler>, d2d: map<nat, Handler>,
                         f: Flags, dispatched: bool, q: Answers)
    ensures var g := if f.masterOnly then Flags(true, false, false, false, false)
                     else if f.p2p then Flags(false, true, false, false, false)
                     else if f.job then Flags(false, false, true, false, false)
                     else if f.p2ch then Flags(false, false, false, true, false)
                     else f;
            && Sends(node, d2m, d2d, f, dispatched, q) == Sends(node, d2m, d2d, g, dispatched, q)
            && Dropped(d2m, f, q) == Dropped(d2m, g, q) && BitAfter(f, dispatched) == BitAfter(g, dispatched)
  {
  }

  /** And of the answers only those of that flag have any influence. */
  lemma OtherAnswersDoNotCount(node: Node, d2m: map<nat, Handler>, d2d: map<nat, Handler>,
                               f: Flags, dispatched: bool, q: Answers, q': Answers)
    requires f.masterOnly ==> q.master == q'.master
    requires !f.masterOnly && f.p2p ==> q.peer == q'.peer
    requires !f.masterOnly && !f.p2p && f.job ==> q.members == q'.members && (!dispatched ==> q.others == q'.others)
    requires !f.masterOnly && !f.p2p && !f.job && f.p2ch ==> q.connection == q'.connection
    requires !f.masterOnly && !f.p2p && !f.job && !f.p2ch && !f.nowhere ==>
               q.local == q'.local && (!dispatched ==> q.remote == q'.remote)
    ensures Sends(node, d2m, d2d, f, dispatched, q) == Sends(node, d2m, d2d, f, dispatched, q')
    ensures Dropped(d2m, f, q) == Dropped(d2m, f, q')
  {
  }

  // ---------------------------------------------------------------------------
  // Agreement with the mesh

  predicate Distinct<T(==)>(s: seq<T>) {
    forall i, j :: 0 <= i < j < |s| ==> s[i] != s[j]
  }

  predicate Injective(m: map<nat, Handler>) {
    forall a, b :: a in m && b in m && m[a] == m[b] ==> a == b
  }

  /** The tables of dispatcher n hold what the mesh tables say, with one handler per entry. */
  ghost predicate View(w: World, tb: Tables, n: Node, d2m: map<nat, Handler>, d2d: map<nat, Handler>) {
    && (forall m: Model :: m in d2m <==> m in tb.bound && w.home(m) == n)
    && (forall r: Node :: r in d2d <==> (n, r) in tb.links)
    && Injective(d2m) && Injective(d2d)
    && (forall a, b :: a in d2m && b in d2d ==> d2m[a] != d2d[b])
  }

  /** The answers are duplicate-free and right: local on this node, remote on others. */
  ghost predicate Faithful(w: World, tb: Tables, n: Node, k: Kind, q: Answers) {
    match k
    case Subscribers(key) =>
      && Distinct(q.local) && Distinct(q.remote)
      && (forall m: Model :: m in q.local <==> (key, m) in tb.subs && w.home(m) == n)
      && (forall r: Node :: r in q.remote <==> r != n && exists m: Model :: (key, m) in tb.subs && w.home(m) == r)
    case WholeJob(job) =>
      && Distinct(q.members) && Distinct(q.others)
      && (forall m: Model :: m in q.members <==> m in tb.bound && w.home(m) == n && w.jobOf(m) == job)
      && (forall r: Node :: r in q.others <==> r in w.nodes && r != n)
    case ToPeer(p) => q.peer == if w.known(p) then [Route(p, w.home(p))] else []
    case ToMaster(job) => q.master == match w.master(job) case None => [] case Some(m) => [Route(m, w.home(m))]
  }

  function FlagsOf(k: Kind): Flags {
    Flags(k.ToMaster?, k.ToPeer?, k.WholeJob?, false, false)
  }

  lemma {:induction false} SendsToMembers(table: map<nat, Handler>, ids: seq<nat>, h: Handler)
    ensures h in SendsTo(table, ids) <==> exists i :: i in ids && i in table && table[i] == h
  {
    if ids != [] {
      SendsToMembers(table, ids[1..], h);
      assert ids == [ids[0]] + ids[1..];
    }
  }

  lemma {:induction false} SendsToDistinct(table: map<nat, Handler>, ids: seq<nat>)
    requires Injective(table) && Distinct(ids)
    ensures Distinct(SendsTo(table, ids))
  {
    if ids != [] {
      SendsToDistinct(table, ids[1..]);
      if ids[0] in table {
        SendsToMembers(table, ids[1..], table[ids[0]]);
      }
    }
  }

  lemma DistinctAppend(a: seq<Handler>, b: seq<Handler>)
    requires Distinct(a) && Distinct(b) && forall h :: h in a ==> h !in b
    ensures Distinct(a + b)
  {
    forall i, j | 0 <= i < j < |a + b|
      ensures (a + b)[i] != (a + b)[j]
    {
      if i < |a| <= j {
        assert a[i] in a && b[j - |a|] in b;
      }
    }
  }

  lemma ListsAreDistinct(d2m: map<nat, Handler>, d2d: map<nat, Handler>, here: seq<nat>, there: seq<nat>)
    requires Injective(d2m) && Injective(d2d) && Distinct(here) && Distinct(there)
    requires forall a, b :: a in d2m && b in d2d ==> d2m[a] != d2d[b]
    ensures Distinct(SendsTo(d2m, here) + SendsTo(d2d, there))
  {
    SendsToDistinct(d2m, here);
    SendsToDistinct(d2d, there);
    forall h | h in SendsTo(d2m, here)
      ensures h !in SendsTo(d2d, there)
    {
      SendsToMembers(d2m, here, h);
      SendsToMembers(d2d, there, h);
    }
    DistinctAppend(SendsTo(d2m, here), SendsTo(d2d, there));
  }

  /** Handlers are written to, and models unsubscribed, in the order in which they are listed. */
  lemma {:induction false} SendsToAppend(table: map<nat, Handler>, a: seq<nat>, b: seq<nat>)
    ensures SendsTo(table, a + b) == SendsTo(table, a) + SendsTo(table, b)
  {
    if a == [] {
      assert a + b == b;
    } else {
      SendsToAppend(table, a[1..], b);
      assert (a + b)[0] == a[0] && (a + b)[1..] == a[1..] + b;
      var head := if a[0] in table then [table[a[0]]] else [];
      Frames.Assoc(head, SendsTo(table, a[1..]), SendsTo(table, b));
    }
  }

  lemma {:induction false} MissingAppend(table: map<nat, Handler>, a: seq<nat>, b: seq<nat>)
    ensures Missing(table, a + b) == Missing(table, a) + Missing(table, b)
  {
    if a == [] {
      assert a + b == b;
    } else {
      MissingAppend(table, a[1..], b);
      assert (a + b)[0] == a[0] && (a + b)[1..] == a[1..] + b;
      var head := if a[0] in table then [] else [a[0]];
      Frames.Assoc(head, Missing(table, a[1..]), Missing(table, b));
    }
  }

  lemma {:induction false} AllFrom(table: map<nat, Handler>, ids: seq<nat>)
    ensures forall i :: 0 <= i < |SendsTo(table, ids)| ==> SendsTo(table, ids)[i] in table.Values
  {
    if ids != [] {
      AllFrom(table, ids[1..]);
    }
  }

  predicate OneThenOther(s: seq<Handler>, first: set<Handler>, second: set<Handler>) {
    && (forall i :: 0 <= i < |s| ==> s[i] in first || s[i] in second)
    && (forall i, j :: 0 <= i < j < |s| && s[i] in second ==> s[j] in second)
  }

  lemma {:induction false} ListsInOrder(d2m: map<nat, Handler>, d2d: map<nat, Handler>, here: seq<nat>, there: seq<nat>)
    requires d2m.Values !! d2d.Values
    ensures OneThenOther(SendsTo(d2m, here) + SendsTo(d2d, there), d2m.Values, d2d.Values)
  {
    AllFrom(d2m, here);
    AllFrom(d2d, there);
  }

  /** Models of this dispatcher come before other dispatchers. */
  lemma {:induction false} LocalsBeforeRemotes(w: World, tb: Tables, n: Node, k: Kind, dispatched: bool, q: Answers,
                                               d2m: map<nat, Handler>, d2d: map<nat, Handler>)
    requires View(w, tb, n, d2m, d2d)
    ensures OneThenOther(Sends(n, d2m, d2d, FlagsOf(k), dispatched, q), d2m.Values, d2d.Values)
  {
    if k.Subscribers? || k.WholeJob? {
      var here := if k.Subscribers? then q.local else q.members;
      var there := if dispatched then [] else if k.Subscribers? then q.remote else q.others;
      ListsInOrder(d2m, d2d, here, there);
    }
  }

  /** No handler is given two copies of a message. */
  lemma NoDoubleSend(w: World, tb: Tables, n: Node, k: Kind, dispatched: bool, q: Answers,
                     d2m: map<nat, Handler>, d2d: map<nat, Handler>)
    requires View(w, tb, n, d2m, d2d) && Faithful(w, tb, n, k, q)
    ensures Distinct(Sends(n, d2m, d2d, FlagsOf(k), dispatched, q))
  {
    if k.Subscribers? || k.WholeJob? {
      var here := if k.Subscribers? then q.local else q.members;
      var there := if dispatched then [] else if k.Subscribers? then q.remote else q.others;
      ListsAreDistinct(d2m, d2d, here, there);
    }
  }

  /** The handlers used are exactly those of the models and dispatchers the mesh model
      names: process refines one step of the transition system. */
  lemma ProcessRefinesMesh(w: World, tb: Tables, n: Node, k: Kind, dispatched: bool, q: Answers,
                           d2m: map<nat, Handler>, d2d: map<nat, Handler>, h: Handler)
    requires View(w, tb, n, d2m, d2d) && Faithful(w, tb, n, k, q)
    ensures h in Sends(n, d2m, d2d, FlagsOf(k), dispatched, q) <==>
              || (exists m :: m in Locals(w, tb, n, k) && m in d2m && d2m[m] == h)
              || (exists r :: r in Remotes(w, tb, n, k, dispatched) && r in d2d && d2d[r] == h)
  {
    if k.Subscribers? || k.WholeJob? {
      var here := if k.Subscribers? then q.local else q.members;
      var there := if k.Subscribers? then q.remote else q.others;
      SendsToMembers(d2m, here, h);
      SendsToMembers(d2d, there, h);
      ListedHere(w, tb, n, k, q, d2m);
      if !dispatched {
        ListedThere(w, tb, n, k, q, d2d);
      }
    } else {
      var d := Dest(w, k);
      if d.Some? {
        assert Locals(w, tb, n, k) <= {d.value} && Remotes(w, tb, n, k, dispatched) <= {w.home(d.value)};
        assert w.home(d.value) == n && d.value in d2m ==> d.value in Locals(w, tb, n, k);
      }
    }
  }

  lemma {:induction false} MissingMembers(table: map<nat, Handler>, ids: seq<nat>, i: nat)
    ensures i in Missing(table, ids) <==> i in ids && i !in table
  {
    if ids != [] {
      MissingMembers(table, ids[1..], i);
      assert ids == [ids[0]] + ids[1..];
    }
  }

  /** The rest of the step: what is unsubscribed is what the mesh step prunes, and the bit
      that leaves with the copies is the one its packets carry. */
  lemma ProcessPrunesMesh(w: World, tb: Tables, n: Node, k: Kind, dispatched: bool, q: Answers,
                          d2m: map<nat, Handler>, d2d: map<nat, Handler>)
    requires View(w, tb, n, d2m, d2d) && Faithful(w, tb, n, k, q)
    ensures forall key: nat, m: Model :: (key, m) in tb.subs ==>
              ((key, m) !in Pruned(w, tb, n, k).subs <==> k == Subscribers(key) && m in Dropped(d2m, FlagsOf(k), q))
    ensures Pruned(w, tb, n, k).subs <= tb.subs
    ensures forall id: nat, hops: nat, p :: p in Copies(id, k, Remotes(w, tb, n, k, dispatched), hops) ==>
              p.dispatched == BitAfter(FlagsOf(k), dispatched)
  {
    if k.Subscribers? {
      forall m: Model
        ensures m in Missing(d2m, q.local) <==> m in q.local && m !in d2m
      {
        MissingMembers(d2m, q.local, m);
      }
    }
  }

  lemma ListedHere(w: World, tb: Tables, n: Node, k: Kind, q: Answers, d2m: map<nat, Handler>)
    requires k.Subscribers? || k.WholeJob?
    requires forall m: Model :: m in d2m <==> m in tb.bound && w.home(m) == n
    requires Faithful(w, tb, n, k, q)
    ensures forall m :: m in (if k.Subscribers? then q.local else q.members) && m in d2m <==> m in Locals(w, tb, n, k)
  {
    forall m: Model
      ensures m in (if k.Subscribers? then q.local else q.members) && m in d2m <==> m in Locals(w, tb, n, k)
    {
      if k.Subscribers? && (k.key, m) in tb.subs && w.home(m) == n && m in tb.bound {
        assert m in Locals(w, tb, n, k);
      }
    }
  }

  lemma ListedThere(w: World, tb: Tables, n: Node, k: Kind, q: Answers, d2d: map<nat, Handler>)
    requires k.Subscribers? || k.WholeJob?
    requires forall r: Node :: r in d2d <==> (n, r) in tb.links
    requires Faithful(w, tb, n, k, q)
    ensures forall r :: r in (if k.Subscribers? then q.remote else q.others) && r in d2d <==> r in Remotes(w, tb, n, k, false)
  {
    forall r: Node
      ensures r in (if k.Subscribers? then q.remote else q.others) && r in d2d <==> r in Remotes(w, tb, n, k, false)
    {
      if k.Subscribers? {
        if r in q.remote && r in d2d {
          var m: Model :| (k.key, m) in tb.subs && w.home(m) == r;
          assert r in Remotes(w, tb, n, k, false);
        }
      }
    }
  }
}
