/**
 * The route caches of the dispatcher (`SubscriptionCache`, `PeerRouteCache`): a unique
 * index by key and a grouping index by run. One generic model serves both; the keys of
 * the subscription cache are pairs (message id, unit id), those of the peer cache ids.
 */
module RouteCache {
  import opened Basics

  datatype Record<K, V> = Record(run: nat, key: K, route: V)

  datatype Op<K, V> = Bind(record: Record<K, V>) | UnbindRun(run: nat) | UnbindKey(key: K)

  function Apply<K, V>(m: map<K, Record<K, V>>, op: Op<K, V>): map<K, Record<K, V>> {
    match op
    case Bind(r) => if r.key in m then m else m[r.key := r]
    case UnbindRun(run) => map k | k in m && m[k].run != run :: m[k]
    case UnbindKey(key) => m - {key}
  }

  /** The cache after a history of operations. */
  function After<K, V>(h: seq<Op<K, V>>): map<K, Record<K, V>> {
    if h == [] then map[] else Apply(After(h[..|h| - 1]), h[|h| - 1])
  }

  // ---------------------------------------------------------------------------
  // What a lookup must return, said of the history alone

  predicate Evicts<K(==), V>(op: Op<K, V>, r: Record<K, V>) {
    op == UnbindKey(r.key) || op == UnbindRun(r.run)
  }

  /** Operation i bound a record under key k and nothing has evicted it since. */
  predicate Survives<K(==), V>(h: seq<Op<K, V>>, k: K, i: nat) {
    && i < |h| && h[i].Bind? && h[i].record.key == k
    && forall j :: i < j < |h| ==> !Evicts(h[j], h[i].record)
  }

  /** It is the first such bind since the key was last vacant. */
  ghost predicate Resident<K(!new), V(!new)>(h: seq<Op<K, V>>, k: K, i: nat)
    decreases |h|
  {
    Survives(h, k, i) && forall i': nat :: i' < i ==> !Resident(h[..i], k, i')
  }

  /** One more operation keeps an earlier resident unless it evicts it. */
  lemma ResidentKept<K(!new), V(!new)>(g: seq<Op<K, V>>, op: Op<K, V>, k: K, i: nat)
    requires i < |g|
    ensures Resident(g + [op], k, i) <==> Resident(g, k, i) && g[i].Bind? && !Evicts(op, g[i].record)
  {
    var h := g + [op];
    assert h[..i] == g[..i] && h[i] == g[i];
    assert forall j :: i < j < |g| ==> h[j] == g[j];
    assert h[|g|] == op;
  }

  ghost predicate Vacant<K(!new), V(!new)>(h: seq<Op<K, V>>, k: K) {
    forall i: nat :: !Resident(h, k, i)
  }

  /** A bind becomes the resident exactly when the key was vacant. */
  lemma ResidentNew<K(!new), V(!new)>(g: seq<Op<K, V>>, op: Op<K, V>, k: K)
    ensures Resident(g + [op], k, |g|) <==> op.Bind? && op.record.key == k && Vacant(g, k)
  {
    var h := g + [op];
    assert h[..|g|] == g && h[|g|] == op;
    if Resident(h, k, |g|) {
      assert Survives(h, k, |g|);
      forall i: nat
        ensures !Resident(g, k, i)
      {
        if i < |g| {
          assert !Resident(h[..|g|], k, i);
        }
      }
    }
    if op.Bind? && op.record.key == k && Vacant(g, k) {
      var n: nat := |g|;
      assert Survives(h, k, n);
      assert forall i: nat :: i < n ==> !Resident(h[..n], k, i);
      assert Resident(h, k, n);
    }
  }

  /** Coherence: after any history a lookup finds exactly the record of the first
      successful bind of the key since its last eviction, and finds nothing if there is
      no such bind. */
  lemma {:induction false} LookupIsResident<K(!new), V(!new)>(h: seq<Op<K, V>>, k: K)
    ensures k in After(h) <==> exists i: nat :: Resident(h, k, i)
    ensures forall i: nat :: Resident(h, k, i) ==> k in After(h) && After(h)[k] == h[i].record
    decreases |h|
  {
    if h != [] {
      var g, op := h[..|h| - 1], h[|h| - 1];
      assert h == g + [op];
      LookupIsResident(g, k);
      forall i: nat | Resident(h, k, i)
        ensures k in After(h) && After(h)[k] == h[i].record
      {
        if i < |g| {
          ResidentKept(g, op, k, i);
        } else {
          ResidentNew(g, op, k);
        }
      }
      if k in After(h) {
        ResidentExists(h, k);
      }
    }
  }

  lemma ResidentExists<K(!new), V(!new)>(h: seq<Op<K, V>>, k: K)
    requires h != [] && k in After(h)
    requires var g := h[..|h| - 1];
             && (k in After(g) <==> exists i: nat :: Resident(g, k, i))
             && (forall i: nat :: Resident(g, k, i) ==> k in After(g) && After(g)[k] == g[i].record)
    ensures exists i: nat :: Resident(h, k, i)
  {
    var g, op := h[..|h| - 1], h[|h| - 1];
    assert h == g + [op];
    if k in After(g) {
      var i: nat :| Resident(g, k, i);
      ResidentKept(g, op, k, i);
      assert Resident(h, k, i);
    } else {
      ResidentNew(g, op, k);
      assert Resident(h, k, |g|);
    }
  }

  lemma SurvivesLater<K, V>(h: seq<Op<K, V>>, n: nat, run: nat, k: K, i: nat)
    requires n < |h| && h[n] == UnbindRun(run)
    requires Survives(h, k, i) && h[i].record.run == run
    ensures n < i
  {
    assert Evicts(h[n], h[i].record);
  }

  /** A route of a run that has ended is never found again unless it was bound anew since:
      whatever followed, a record of that run in the cache comes from a later bind. */
  lemma EndedRunStaysGone<K(!new), V(!new)>(h: seq<Op<K, V>>, n: nat, run: nat, k: K)
    requires n < |h| && h[n] == UnbindRun(run)
    requires k in After(h) && After(h)[k].run == run
    ensures exists i :: n < i < |h| && h[i] == Bind(After(h)[k])
  {
    LookupIsResident(h, k);
    var i: nat :| Resident(h, k, i);
    SurvivesLater(h, n, run, k, i);
    assert h[i] == Bind(After(h)[k]);
  }

  // ---------------------------------------------------------------------------
  // The cache object

  lemma CountUp(x: nat)
    ensures (x % WORD + 1) % WORD == (x + 1) % WORD
  {
  }

  lemma CountsAgree(hits: nat, calls: nat)
    requires hits <= calls
    ensures calls < WORD ==> hits % WORD <= calls % WORD
  {
  }

  class Cache<K(==), V> {
    var byKey: map<K, Record<K, V>>
    var byRun: map<nat, set<K>>
    var hit: nat
    var called: nat
    ghost var hits: nat
    ghost var calls: nat

    /** Both indices hold the same records; the counters are the true counts in 32 bits. */
    ghost predicate Valid()
      reads this
    {
      && (forall k :: k in byKey ==> byKey[k].key == k && byKey[k].run in byRun && k in byRun[byKey[k].run])
      && (forall run, k :: run in byRun && k in byRun[run] ==> k in byKey && byKey[k].run == run)
      && hits <= calls && hit == hits % WORD && called == calls % WORD
    }

    constructor ()
      ensures Valid() && byKey == map[]
    {
      byKey, byRun, hit, called, hits, calls := map[], map[], 0, 0, 0, 0;
    }

    method Insert(r: Record<K, V>) returns (ok: bool)
      requires Valid()
      modifies this
      ensures Valid() && byKey == Apply(old(byKey), Bind(r)) && hits == old(hits) && calls == old(calls)
      ensures ok <==> r.key !in old(byKey)
      ensures byKey == if ok then old(byKey)[r.key := r] else old(byKey)
    {
      ok := r.key !in byKey;
      if ok {
        byKey := byKey[r.key := r];
        byRun := byRun[r.run := (if r.run in byRun then byRun[r.run] else {}) + {r.key}];
      }
    }

    method UnbindRunID(run: nat)
      requires Valid()
      modifies this
      ensures Valid() && byKey == Apply(old(byKey), UnbindRun(run)) && hits == old(hits) && calls == old(calls)
      ensures forall k :: k in byKey ==> byKey[k].run != run
      ensures forall k :: k in old(byKey) && old(byKey)[k].run != run ==> k in byKey && byKey[k] == old(byKey)[k]
    {
      if run in byRun {
        var gone := byRun[run];
        byKey := byKey - gone;
        byRun := byRun - {run};
      }
      assert byKey == Apply(old(byKey), UnbindRun(run));
    }

    method UnbindOne(key: K)
      requires Valid()
      modifies this
      ensures Valid() && byKey == Apply(old(byKey), UnbindKey(key)) && hits == old(hits) && calls == old(calls)
      ensures key !in byKey && forall k :: k in old(byKey) && k != key ==> k in byKey && byKey[k] == old(byKey[k])
    {
      if key in byKey {
        var run := byKey[key].run;
        byRun := byRun[run := byRun[run] - {key}];
        byKey := byKey - {key};
      }
    }

    /** findRouting: the cached route, counting calls and hits. */
    method FindRouting(key: K) returns (found: Option<V>)
      requires Valid()
      modifies this`hit, this`called, this`hits, this`calls
      ensures Valid()
      ensures found == if key in byKey then Some(byKey[key].route) else None
      ensures calls == old(calls) + 1 && hits == old(hits) + (if found.Some? then 1 else 0)
      ensures calls < WORD ==> hit <= called
    {
      found := None;
      if key in byKey {
        CountUp(hits);
        hit, hits := (hit + 1) % WORD, hits + 1;
        found := Some(byKey[key].route);
      }
      CountUp(calls);
      called, calls := (called + 1) % WORD, calls + 1;
      CountsAgree(hits, calls);
    }
  }

  /** A GOODBYE_REQUEST routed to a whole job flushes both caches of that run. */
  method FlushRun<K(==), K'(==), V, V'>(subscriptions: Cache<K, V>, peers: Cache<K', V'>, run: nat)
    requires subscriptions.Valid() && peers.Valid() && subscriptions as object != peers
    modifies subscriptions, peers
    ensures subscriptions.Valid() && peers.Valid()
    ensures forall k :: k in subscriptions.byKey ==> subscriptions.byKey[k].run != run
    ensures forall k :: k in peers.byKey ==> peers.byKey[k].run != run
    ensures subscriptions.byKey == Apply(old(subscriptions.byKey), UnbindRun(run))
    ensures peers.byKey == Apply(old(peers.byKey), UnbindRun(run))
  {
    subscriptions.UnbindRunID(run);
    peers.UnbindRunID(run);
  }
}
