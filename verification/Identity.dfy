/**
 * The identity tables. Both the D2M and the D2D table are multi-index containers: one
 * set of records reachable through several unique keys and several grouping keys.
 * Records here are plain values; handlers are numbered.
 */
module Identity {
  import opened Basics

  datatype ModelRecord = ModelRecord(
    chid: int, jid: int, mid: int, nodeid: int, unitid: int, statsid: int, pid: int, name: string, ch: int)

  datatype DispatcherRecord = DispatcherRecord(chid: int, peer: int, node: int, ch: int)

  function ModelKeys(): seq<ModelRecord -> int> {
    [(r: ModelRecord) => r.chid, (r: ModelRecord) => r.mid, (r: ModelRecord) => r.pid, (r: ModelRecord) => r.ch]
  }

  function ModelGroups(): seq<ModelRecord -> int> {
    [(r: ModelRecord) => r.jid, (r: ModelRecord) => r.nodeid, (r: ModelRecord) => r.unitid, (r: ModelRecord) => r.statsid]
  }

  function DispatcherKeys(): seq<DispatcherRecord -> int> {
    [(r: DispatcherRecord) => r.chid, (r: DispatcherRecord) => r.peer,
     (r: DispatcherRecord) => r.node, (r: DispatcherRecord) => r.ch]
  }

  // ---------------------------------------------------------------------------
  // The table as a plain set of records

  ghost predicate Taken<R>(keys: seq<R -> int>, t: set<R>, e: R) {
    exists i, r :: 0 <= i < |keys| && r in t && keys[i](r) == keys[i](e)
  }

  /** No two records share any unique key. */
  ghost predicate UniqueKeys<R>(keys: seq<R -> int>, t: set<R>) {
    forall i, r, r' :: 0 <= i < |keys| && r in t && r' in t && keys[i](r) == keys[i](r') ==> r == r'
  }

  datatype Op<R> = Bind(record: R) | Unbind(index: nat, key: int)

  ghost function Apply<R>(keys: seq<R -> int>, t: set<R>, op: Op<R>): set<R> {
    match op
    case Bind(e) => if Taken(keys, t, e) then t else t + {e}
    case Unbind(i, k) => if i < |keys| then set r | r in t && keys[i](r) != k else t
  }

  ghost function ApplyAll<R>(keys: seq<R -> int>, t: set<R>, ops: seq<Op<R>>): set<R>
    decreases |ops|
  {
    if ops == [] then t else ApplyAll(keys, Apply(keys, t, ops[0]), ops[1..])
  }

  /** Uniqueness of every key survives every history of binds and unbinds. */
  lemma {:induction false} HistoryKeepsUnique<R>(keys: seq<R -> int>, t: set<R>, ops: seq<Op<R>>)
    requires UniqueKeys(keys, t)
    ensures UniqueKeys(keys, ApplyAll(keys, t, ops))
    decreases |ops|
  {
    if ops != [] {
      HistoryKeepsUnique(keys, Apply(keys, t, ops[0]), ops[1..]);
    }
  }

  /** In a table with unique keys, an unbind removes the one record found under the key
      and nothing else. */
  lemma UnbindRemovesOne<R>(keys: seq<R -> int>, t: set<R>, i: nat, r: R)
    requires UniqueKeys(keys, t) && i < |keys| && r in t
    ensures Apply(keys, t, Unbind(i, keys[i](r))) == t - {r}
  {
  }

  /** What a bind into the D2M table checks: these four fields and no other. */
  lemma ModelTaken(t: set<ModelRecord>, e: ModelRecord)
    ensures Taken(ModelKeys(), t, e) <==>
              exists r :: r in t && (r.chid == e.chid || r.mid == e.mid || r.pid == e.pid || r.ch == e.ch)
  {
    var ks := ModelKeys();
    assert forall r :: ks[0](r) == r.chid && ks[1](r) == r.mid && ks[2](r) == r.pid && ks[3](r) == r.ch;
  }

  function Binds(rs: seq<ModelRecord>): seq<Op<ModelRecord>> {
    seq(|rs|, i requires 0 <= i < |rs| => Bind(rs[i]))
  }

  predicate Apart(r: ModelRecord, e: ModelRecord) {
    r.chid != e.chid && r.mid != e.mid && r.pid != e.pid && r.ch != e.ch
  }

  lemma {:induction false} BindsAddAll(t: set<ModelRecord>, rs: seq<ModelRecord>)
    requires forall i, j :: 0 <= i < j < |rs| ==> Apart(rs[i], rs[j])
    requires forall r, i :: r in t && 0 <= i < |rs| ==> Apart(r, rs[i])
    ensures ApplyAll(ModelKeys(), t, Binds(rs)) == t + set r | r in rs
    decreases |rs|
  {
    if rs == [] {
      assert t + (set r | r in rs) == t;
    } else {
      ModelTaken(t, rs[0]);
      assert Binds(rs)[0] == Bind(rs[0]) && Binds(rs)[1..] == Binds(rs[1..]);
      assert Apply(ModelKeys(), t, Binds(rs)[0]) == t + {rs[0]};
      BindsAddAll(t + {rs[0]}, rs[1..]);
      assert rs == [rs[0]] + rs[1..];
    }
  }

  /** Models that differ in channel, model, process and handler are all bound, however much
      else they share: the range of a job holds every one of that job, and the range of a
      node every one on that node. */
  lemma JobHoldsAllBound(rs: seq<ModelRecord>, r: ModelRecord, jid: int)
    requires forall i, j :: 0 <= i < j < |rs| ==> Apart(rs[i], rs[j])
    ensures var t := ApplyAll(ModelKeys(), {}, Binds(rs));
            r in t && r.jid == jid <==> r in rs && r.jid == jid
  {
    BindsAddAll({}, rs);
  }

  /** What a bind into the D2D table checks. */
  lemma DispatcherTaken(t: set<DispatcherRecord>, e: DispatcherRecord)
    ensures Taken(DispatcherKeys(), t, e) <==>
              exists r :: r in t && (r.chid == e.chid || r.peer == e.peer || r.node == e.node || r.ch == e.ch)
  {
    var ks := DispatcherKeys();
    assert forall r :: ks[0](r) == r.chid && ks[1](r) == r.peer && ks[2](r) == r.node && ks[3](r) == r.ch;
  }

  lemma DispatcherUnbindHandle(t: set<DispatcherRecord>, chid: int)
    ensures Apply(DispatcherKeys(), t, Unbind(0, chid)) == set r | r in t && r.chid != chid
  {
  }

  // ---------------------------------------------------------------------------
  // One index

  ghost predicate IndexOf<R>(key: R -> int, m: map<int, R>, t: set<R>) {
    && (forall k :: k in m ==> m[k] in t && key(m[k]) == k)
    && (forall r :: r in t ==> key(r) in m && m[key(r)] == r)
  }

  lemma Found<R>(key: R -> int, m: map<int, R>, t: set<R>, k: int)
    requires IndexOf(key, m, t) && k in m
    ensures m[k] in t && key(m[k]) == k
  {
  }

  ghost predicate RangeOf<R>(group: R -> int, m: map<int, set<R>>, t: set<R>) {
    && (forall k :: k in m ==> m[k] == set r | r in t && group(r) == k)
    && (forall r :: r in t ==> group(r) in m)
  }

  lemma IndexInsert<R>(key: R -> int, m: map<int, R>, t: set<R>, e: R)
    requires IndexOf(key, m, t) && key(e) !in m
    ensures IndexOf(key, m[key(e) := e], t + {e})
  {
  }

  lemma IndexErase<R>(key: R -> int, m: map<int, R>, t: set<R>, e: R)
    requires IndexOf(key, m, t) && e in t
    ensures IndexOf(key, m - {key(e)}, t - {e})
  {
  }

  function RangeWith<R>(group: R -> int, m: map<int, set<R>>, e: R): map<int, set<R>> {
    var k := group(e);
    m[k := (if k in m then m[k] else {}) + {e}]
  }

  function RangeWithout<R>(group: R -> int, m: map<int, set<R>>, e: R): map<int, set<R>> {
    var k := group(e);
    if k in m then m[k := m[k] - {e}] else m
  }

  lemma RangeInsert<R>(group: R -> int, m: map<int, set<R>>, t: set<R>, e: R)
    requires RangeOf(group, m, t)
    ensures RangeOf(group, RangeWith(group, m, e), t + {e})
  {
  }

  lemma RangeErase<R>(group: R -> int, m: map<int, set<R>>, t: set<R>, e: R)
    requires RangeOf(group, m, t) && e in t
    ensures RangeOf(group, RangeWithout(group, m, e), t - {e})
  {
  }

  // ---------------------------------------------------------------------------
  // The container

  class MultiIndex<R(==)> {
    const keys: seq<R -> int>
    const groups: seq<R -> int>
    var unique: seq<map<int, R>>
    var ranges: seq<map<int, set<R>>>

    /** The set of records the container stands for. */
    ghost function Records(): set<R>
      reads this
    {
      if unique == [] then {} else set k | k in unique[0] :: unique[0][k]
    }

    ghost predicate Indexed(t: set<R>)
      reads this
    {
      && |unique| == |keys| > 0 && |ranges| == |groups|
      && (forall i :: 0 <= i < |keys| ==> IndexOf(keys[i], unique[i], t))
      && (forall j :: 0 <= j < |groups| ==> RangeOf(groups[j], ranges[j], t))
    }

    /** All indices hold the same records. */
    ghost predicate Valid()
      reads this
    {
      Indexed(Records())
    }

    lemma IndexedIsValid(t: set<R>)
      requires Indexed(t)
      ensures Valid() && Records() == t
    {
      assert IndexOf(keys[0], unique[0], t);
      forall r | r in t
        ensures r in Records()
      {
        var k := keys[0](r);
        assert k in unique[0] && unique[0][k] == r;
      }
    }

    constructor (keys: seq<R -> int>, groups: seq<R -> int>)
      requires |keys| > 0
      ensures Valid() && Records() == {} && this.keys == keys && this.groups == groups
    {
      this.keys, this.groups := keys, groups;
      unique := seq(|keys|, i => map[]);
      ranges := seq(|groups|, i => map[]);
    }

    /** bind: succeeds if and only if no unique key is taken; otherwise nothing changes. */
    method Insert(e: R) returns (ok: bool)
      requires Valid()
      modifies this
      ensures Valid()
      ensures ok <==> !Taken(keys, old(Records()), e)
      ensures Records() == Apply(keys, old(Records()), Bind(e))
    {
      ghost var t := Records();
      var i := 0;
      while i < |keys|
        invariant 0 <= i <= |keys|
        invariant forall k :: 0 <= k < i ==> keys[k](e) !in unique[k]
      {
        assert IndexOf(keys[i], unique[i], t);
        if keys[i](e) in unique[i] {
          var r := unique[i][keys[i](e)];
          Found(keys[i], unique[i], t, keys[i](e));
          return false;
        }
        i := i + 1;
      }
      assert !Taken(keys, t, e) by {
        assert forall k :: 0 <= k < |keys| ==> IndexOf(keys[k], unique[k], t);
      }
      i := 0;
      while i < |keys|
        invariant 0 <= i <= |keys| == |unique| && |ranges| == |groups|
        invariant forall k :: 0 <= k < i ==> IndexOf(keys[k], unique[k], t + {e})
        invariant forall k :: i <= k < |keys| ==> IndexOf(keys[k], unique[k], t) && keys[k](e) !in unique[k]
        invariant ranges == old(ranges)
      {
        IndexInsert(keys[i], unique[i], t, e);
        unique := unique[i := unique[i][keys[i](e) := e]];
        i := i + 1;
      }
      i := 0;
      while i < |groups|
        invariant 0 <= i <= |groups| == |ranges| && |unique| == |keys|
        invariant forall k :: 0 <= k < i ==> RangeOf(groups[k], ranges[k], t + {e})
        invariant forall k :: i <= k < |groups| ==> RangeOf(groups[k], ranges[k], t)
        invariant forall k :: 0 <= k < |keys| ==> IndexOf(keys[k], unique[k], t + {e})
      {
        RangeInsert(groups[i], ranges[i], t, e);
        ranges := ranges[i := RangeWith(groups[i], ranges[i], e)];
        i := i + 1;
      }
      IndexedIsValid(t + {e});
      ok := true;
    }

    /** unbind through one of the unique indices. */
    method Erase(at: nat, key: int)
      requires Valid() && at < |keys|
      modifies this
      ensures Valid()
      ensures Records() == Apply(keys, old(Records()), Unbind(at, key))
    {
      ghost var t := Records();
      assert IndexOf(keys[at], unique[at], t);
      if key !in unique[at] {
        assert t == Apply(keys, t, Unbind(at, key));
        return;
      }
      var e := unique[at][key];
      assert t - {e} == Apply(keys, t, Unbind(at, key));
      var i := 0;
      while i < |keys|
        invariant 0 <= i <= |keys| == |unique| && |ranges| == |groups|
        invariant forall k :: 0 <= k < i ==> IndexOf(keys[k], unique[k], t - {e})
        invariant forall k :: i <= k < |keys| ==> IndexOf(keys[k], unique[k], t)
        invariant ranges == old(ranges)
      {
        IndexErase(keys[i], unique[i], t, e);
        unique := unique[i := unique[i] - {keys[i](e)}];
        i := i + 1;
      }
      i := 0;
      while i < |groups|
        invariant 0 <= i <= |groups| == |ranges| && |unique| == |keys|
        invariant forall k :: 0 <= k < i ==> RangeOf(groups[k], ranges[k], t - {e})
        invariant forall k :: i <= k < |groups| ==> RangeOf(groups[k], ranges[k], t)
        invariant forall k :: 0 <= k < |keys| ==> IndexOf(keys[k], unique[k], t - {e})
      {
        RangeErase(groups[i], ranges[i], t, e);
        ranges := ranges[i := RangeWithout(groups[i], ranges[i], e)];
        i := i + 1;
      }
      IndexedIsValid(t - {e});
    }

    /** find: the record under a key of any unique index; asking by another key of the
        same record gives the same record. */
    method Find(at: nat, key: int) returns (found: Option<R>)
      requires Valid() && at < |keys|
      ensures found.Some? ==> found.value in Records() && keys[at](found.value) == key
      ensures found.None? ==> forall r :: r in Records() ==> keys[at](r) != key
      ensures forall r :: r in Records() && keys[at](r) == key ==> found == Some(r)
    {
      assert IndexOf(keys[at], unique[at], Records());
      found := if key in unique[at] then Some(unique[at][key]) else None;
    }

    /** equal_range on a grouping key: exactly the records of that group. */
    method Group(at: nat, key: int) returns (members: set<R>)
      requires Valid() && at < |groups|
      ensures forall r :: r in members <==> r in Records() && groups[at](r) == key
    {
      assert RangeOf(groups[at], ranges[at], Records());
      members := if key in ranges[at] then ranges[at][key] else {};
    }
  }

  /** The D2M table. */
  method NewModelTable() returns (table: MultiIndex<ModelRecord>)
    ensures fresh(table) && table.Valid() && table.Records() == {}
    ensures table.keys == ModelKeys() && table.groups == ModelGroups()
    ensures |table.keys| == 4 && forall r ::
              && table.keys[0](r) == r.chid && table.keys[1](r) == r.mid
              && table.keys[2](r) == r.pid && table.keys[3](r) == r.ch
    ensures |table.groups| == 4 && forall r ::
              && table.groups[0](r) == r.jid && table.groups[1](r) == r.nodeid
              && table.groups[2](r) == r.unitid && table.groups[3](r) == r.statsid
  {
    table := new MultiIndex(ModelKeys(), ModelGroups());
  }

  /** bind on it, with the keys it checks spelled out. */
  method BindModel(table: MultiIndex<ModelRecord>, e: ModelRecord) returns (ok: bool)
    requires table.Valid() && table.keys == ModelKeys()
    modifies table
    ensures table.Valid() && table.keys == ModelKeys()
    ensures ok <==> forall r :: r in old(table.Records()) ==> Apart(r, e)
    ensures table.Records() == if ok then old(table.Records()) + {e} else old(table.Records())
  {
    ModelTaken(table.Records(), e);
    ok := table.Insert(e);
  }

  /** allRecordsInJob on it. */
  method AllRecordsInJob(table: MultiIndex<ModelRecord>, jid: int) returns (members: set<ModelRecord>)
    requires table.Valid() && table.keys == ModelKeys() && table.groups == ModelGroups()
    ensures forall r :: r in members <==> r in table.Records() && r.jid == jid
  {
    members := table.Group(0, jid);
    assert forall r :: table.groups[0](r) == r.jid;
  }

  /** getCHfromModelID on it: the handler of the one record of the model. */
  method HandlerOfModel(table: MultiIndex<ModelRecord>, mid: int) returns (ch: Option<int>)
    requires table.Valid() && table.keys == ModelKeys()
    ensures forall r :: r in table.Records() && r.mid == mid ==> ch == Some(r.ch)
    ensures (forall r :: r in table.Records() ==> r.mid != mid) ==> ch == None
  {
    assert forall r :: table.keys[1](r) == r.mid;
    var found := table.Find(1, mid);
    ch := match found case Some(r) => Some(r.ch) case None => None;
  }

  /** The D2D table. */
  method NewDispatcherTable() returns (table: MultiIndex<DispatcherRecord>)
    ensures fresh(table) && table.Valid() && table.Records() == {}
    ensures table.keys == DispatcherKeys() && table.groups == []
    ensures |table.keys| == 4 && forall r ::
              && table.keys[0](r) == r.chid && table.keys[1](r) == r.peer
              && table.keys[2](r) == r.node && table.keys[3](r) == r.ch
  {
    table := new MultiIndex(DispatcherKeys(), []);
  }

  /** unbindCHID on it: the entry under the handle number goes, and nothing else. */
  method UnbindCHID(table: MultiIndex<DispatcherRecord>, chid: int)
    requires table.Valid() && table.keys == DispatcherKeys()
    modifies table
    ensures table.Valid() && table.keys == DispatcherKeys()
    ensures table.Records() == set r | r in old(table.Records()) && r.chid != chid
  {
    DispatcherUnbindHandle(table.Records(), chid);
    table.Erase(0, chid);
  }

  /** In the D2M table two lookups of one model, by model id and by channel id, by
      process id or by handler, cannot disagree after any history. */
  lemma ModelLookupsAgree(ops: seq<Op<ModelRecord>>, r: ModelRecord, r': ModelRecord)
    requires var t := ApplyAll(ModelKeys(), {}, ops);
             r in t && r' in t && (r.mid == r'.mid || r.chid == r'.chid || r.pid == r'.pid || r.ch == r'.ch)
    ensures r == r'
  {
    HistoryKeepsUnique(ModelKeys(), {}, ops);
    var ks := ModelKeys();
    assert ks[0](r) == r.chid && ks[1](r) == r.mid && ks[2](r) == r.pid && ks[3](r) == r.ch;
    assert ks[0](r') == r'.chid && ks[1](r') == r'.mid && ks[2](r') == r'.pid && ks[3](r') == r'.ch;
  }

  /** The D2D table never holds two handlers for one node, nor one handler for two. */
  lemma OneHandlerPerNode(ops: seq<Op<DispatcherRecord>>, r: DispatcherRecord, r': DispatcherRecord)
    requires var t := ApplyAll(DispatcherKeys(), {}, ops); r in t && r' in t
    ensures r.node == r'.node <==> r.ch == r'.ch
  {
    HistoryKeepsUnique(DispatcherKeys(), {}, ops);
    var ks := DispatcherKeys();
    assert ks[2](r) == r.node && ks[3](r) == r.ch && ks[2](r') == r'.node && ks[3](r') == r'.ch;
  }
}
