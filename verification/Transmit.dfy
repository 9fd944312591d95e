/**
 * The dispatcher's transmitter: `TransmitHandler` sends what the socket takes at once,
 * puts the rest back at the front of its queue and asks for a write wakeup.
 */
module Transmit {
  import opened Frames

  /** What one send attempt did: moved n bytes; moved bt bytes and would block; moved bt
      bytes and failed for good. */
  datatype Send = Sent(n: nat) | Blocked(bt: nat) | Broken(bt: nat)

  /** The environment's part in one step: the send, and whether the queue has room. */
  datatype Choice = Choice(send: Send, room: bool)

  /** Unsent blocks head first, wakeup registration, failure flag, bytes handed to the socket. */
  datatype Tx<T> = Tx(queue: seq<seq<T>>, wakeup: bool, failed: bool, sent: seq<T>)

  datatype Result<T> = Result(tx: Tx<T>, value: int)

  function Fresh<T>(): Tx<T> {
    Tx([], false, false, [])
  }

  function BytesMoved(s: Send): nat {
    match s case Sent(n) => n case Blocked(bt) => bt case Broken(bt) => bt
  }

  predicate Possible<T>(s: Send, block: seq<T>) {
    match s
    case Sent(n) => 0 < n <= |block|
    case Blocked(bt) => bt < |block|
    case Broken(bt) => bt < |block|
  }

  /** A wakeup is registered exactly when output is pending; no empty block is queued. */
  predicate Consistent<T>(tx: Tx<T>) {
    (tx.wakeup <==> tx.queue != []) && forall i :: 0 <= i < |tx.queue| ==> tx.queue[i] != []
  }

  function NonblkPut<T>(tx: Tx<T>, block: seq<T>, c: Choice): Result<T>
    requires Possible(c.send, block)
  {
    var k := BytesMoved(c.send);
    var out := tx.sent + block[..k];
    if c.send.Broken? then Result(tx.(sent := out, failed := true), -1)
    else if k == |block| then Result(tx.(sent := out), k)
    else if !c.room then Result(tx.(sent := out), -1)
    else Result(Tx([block[k..]] + tx.queue, true, tx.failed, out), k)
  }

  function Put<T>(tx: Tx<T>, block: seq<T>, c: Choice): Result<T>
    requires tx.queue == [] ==> Possible(c.send, block)
  {
    if tx.queue == [] then NonblkPut(tx, block, c)
    else if c.room then Result(tx.(queue := tx.queue + [block]), |tx.queue| + 1)
    else Result(tx, -1)
  }

  function HandleOutput<T>(tx: Tx<T>, c: Choice): Tx<T>
    requires tx.queue != [] ==> Possible(c.send, tx.queue[0])
  {
    if tx.queue == [] then tx
    else
      var r := NonblkPut(tx.(queue := tx.queue[1..]), tx.queue[0], c);
      if r.value != 0 && r.tx.queue == [] then r.tx.(wakeup := false) else r.tx
  }

  /** Everything the handler is responsible for: bytes sent, then bytes pending. */
  function Account<T>(tx: Tx<T>): seq<T> {
    tx.sent + Flatten(tx.queue)
  }

  function Pending<T>(tx: Tx<T>): nat {
    |Flatten(tx.queue)|
  }

  // ---------------------------------------------------------------------------
  // One step

  lemma PutKeepsConsistent<T>(tx: Tx<T>, block: seq<T>, c: Choice)
    requires Consistent(tx) && block != [] && (tx.queue == [] ==> Possible(c.send, block))
    ensures Consistent(Put(tx, block, c).tx)
  {
  }

  lemma HandleOutputKeepsConsistent<T>(tx: Tx<T>, c: Choice)
    requires Consistent(tx) && (tx.queue != [] ==> Possible(c.send, tx.queue[0]))
    ensures Consistent(HandleOutput(tx, c))
  {
  }

  lemma SplitBlock<T>(sent: seq<T>, block: seq<T>, k: nat, rest: seq<T>)
    requires k <= |block|
    ensures (sent + block[..k]) + (block[k..] + rest) == sent + (block + rest)
  {
    assert block == block[..k] + block[k..];
  }

  /** A send attempt keeps the account, in order, exactly when the block went out whole
      or its remainder found room at the head of the queue. */
  lemma NonblkPutAccount<T>(tx: Tx<T>, block: seq<T>, c: Choice)
    requires Possible(c.send, block)
    ensures var r, k := NonblkPut(tx, block, c), BytesMoved(c.send);
            var whole := tx.sent + (block + Flatten(tx.queue));
            && (Account(r.tx) == whole <==> k == |block| || (c.room && !c.send.Broken?))
            && (r.value == -1 <==> Account(r.tx) != whole)
            && (r.value == -1 ==> r.tx.queue == tx.queue && r.tx.sent == tx.sent + block[..k])
  {
    var r, k := NonblkPut(tx, block, c), BytesMoved(c.send);
    SplitBlock(tx.sent, block, k, Flatten(tx.queue));
    if k == |block| {
      assert block[..k] == block;
      Assoc(tx.sent, block, Flatten(tx.queue));
    } else if r.value != -1 {
      var q := r.tx.queue;
      assert q[0] == block[k..] && q[1..] == tx.queue;
    } else {
      assert |Account(r.tx)| < |tx.sent + (block + Flatten(tx.queue))|;
    }
  }

  /** A handler fails exactly when a send it makes fails for good, and a failed send re-queues
      nothing. */
  lemma FailsIff<T>(tx: Tx<T>, block: seq<T>, c: Choice)
    requires Possible(c.send, block)
    ensures NonblkPut(tx, block, c).tx.failed <==> tx.failed || c.send.Broken?
    ensures c.send.Broken? ==> NonblkPut(tx, block, c).value == -1 && NonblkPut(tx, block, c).tx.queue == tx.queue
  {
  }

  /** What put returns: -1 for a message it could not take, else the bytes sent at once, or
      the number of blocks now queued. */
  lemma PutReturns<T>(tx: Tx<T>, block: seq<T>, c: Choice)
    requires block != [] && (tx.queue == [] ==> Possible(c.send, block))
    ensures var r := Put(tx, block, c);
            && (r.value == -1 <==> if tx.queue != [] then !c.room
                                   else c.send.Broken? || (BytesMoved(c.send) < |block| && !c.room))
            && (r.value != -1 ==> r.value == if tx.queue == [] then BytesMoved(c.send) else |r.tx.queue|)
  {
  }

  /** put: an accepted message is appended to the account; a refused one contributes
      nothing if and only if no byte of it had been moved. */
  lemma PutAccount<T>(tx: Tx<T>, block: seq<T>, c: Choice)
    requires block != [] && (tx.queue == [] ==> Possible(c.send, block))
    ensures var r := Put(tx, block, c);
            && (r.value != -1 ==> Account(r.tx) == Account(tx) + block)
            && (r.value == -1 ==>
                  (Account(r.tx) == Account(tx) <==> tx.queue != [] || BytesMoved(c.send) == 0))
  {
    var r := Put(tx, block, c);
    if tx.queue == [] {
      NonblkPutAccount(tx, block, c);
      assert Flatten(tx.queue) == [];
      assert block + [] == block && tx.sent + [] == tx.sent;
      if r.value == -1 {
        assert Account(r.tx) == tx.sent + block[..BytesMoved(c.send)];
        assert BytesMoved(c.send) > 0 ==> |Account(r.tx)| > |Account(tx)|;
      }
    } else if c.room {
      FlattenAppend(tx.queue, [block]);
      assert Flatten([block]) == block + Flatten([]) == block;
      Assoc(tx.sent, Flatten(tx.queue), block);
    }
  }

  /** handle_output: the account is unchanged if and only if the head went out whole or
      its remainder could be queued again; a lost remainder is never made up. */
  lemma HandleOutputAccount<T>(tx: Tx<T>, c: Choice)
    requires tx.queue != [] && Possible(c.send, tx.queue[0])
    ensures var k := BytesMoved(c.send);
            Account(HandleOutput(tx, c)) == Account(tx)
            <==> k == |tx.queue[0]| || (c.room && !c.send.Broken?)
  {
    NonblkPutAccount(tx.(queue := tx.queue[1..]), tx.queue[0], c);
  }

  /** Drain measure: pending bytes shrink by exactly what the wakeup moved. */
  lemma HandleOutputDrains<T>(tx: Tx<T>, c: Choice)
    requires tx.queue != [] && Possible(c.send, tx.queue[0])
    requires BytesMoved(c.send) == |tx.queue[0]| || (c.room && !c.send.Broken?)
    ensures var tx' := HandleOutput(tx, c);
            Pending(tx') == Pending(tx) - BytesMoved(c.send) && |tx'.sent| == |tx.sent| + BytesMoved(c.send)
  {
    HandleOutputAccount(tx, c);
    assert |Account(tx)| == |tx.sent| + Pending(tx);
    assert |Account(HandleOutput(tx, c))| == |HandleOutput(tx, c).sent| + Pending(HandleOutput(tx, c));
  }

  // ---------------------------------------------------------------------------
  // Draining

  /** A schedule of wakeups, each of which moves at least one byte and loses none. */
  predicate Progressing<T>(tx: Tx<T>, cs: seq<Choice>)
    decreases |cs|
  {
    cs == [] || tx.queue == [] || (
      && Possible(cs[0].send, tx.queue[0]) && BytesMoved(cs[0].send) > 0
      && cs[0].room && !cs[0].send.Broken?
      && Progressing(HandleOutput(tx, cs[0]), cs[1..]))
  }

  function Outputs<T>(tx: Tx<T>, cs: seq<Choice>): Tx<T>
    requires Progressing(tx, cs)
    decreases |cs|
  {
    if cs == [] || tx.queue == [] then tx else Outputs(HandleOutput(tx, cs[0]), cs[1..])
  }

  /** Nothing is stranded: as many progressing wakeups as there are pending bytes empty
      the queue, cancel the wakeup, and leave on the wire exactly what was owed. */
  lemma {:induction false} OutputsDrain<T>(tx: Tx<T>, cs: seq<Choice>)
    requires Consistent(tx) && Progressing(tx, cs) && |cs| >= Pending(tx)
    ensures var tx' := Outputs(tx, cs);
            tx'.queue == [] && !tx'.wakeup && tx'.sent == Account(tx)
    decreases |cs|
  {
    if tx.queue == [] {
      assert tx.sent + [] == tx.sent;
    } else {
      assert Pending(tx) >= |tx.queue[0]| > 0;
      HandleOutputDrains(tx, cs[0]);
      HandleOutputAccount(tx, cs[0]);
      HandleOutputKeepsConsistent(tx, cs[0]);
      OutputsDrain(HandleOutput(tx, cs[0]), cs[1..]);
    }
  }

  // ---------------------------------------------------------------------------
  // The handler object

  /** A message block: a buffer and a read pointer that only moves forward. */
  class MessageBlock {
    const data: seq<byte>
    var rd: nat

    constructor (bytes: seq<byte>)
      ensures data == bytes && rd == 0
    {
      data, rd := bytes, 0;
    }
  }

  class TransmitHandler {
    var queue: seq<MessageBlock>
    var wakeup: bool
    var failed: bool
    var sent: seq<byte>

    ghost predicate Valid()
      reads this, queue
    {
      && (forall i :: 0 <= i < |queue| ==> queue[i].rd < |queue[i].data|)
      && (forall i, j :: 0 <= i < j < |queue| ==> queue[i] != queue[j])
      && (wakeup <==> queue != [])
    }

    ghost function Unsent(blocks: seq<MessageBlock>): (r: seq<seq<byte>>)
      reads blocks
      ensures |r| == |blocks|
    {
      if blocks == [] then []
      else [if blocks[0].rd <= |blocks[0].data| then blocks[0].data[blocks[0].rd..] else []] + Unsent(blocks[1..])
    }

    ghost function State(): Tx<byte>
      reads this, queue
    {
      Tx(Unsent(queue), wakeup, failed, sent)
    }

    twostate lemma UnsentUnchanged(blocks: seq<MessageBlock>)
      requires forall i :: 0 <= i < |blocks| ==> unchanged(blocks[i])
      ensures Unsent(blocks) == old(Unsent(blocks))
    {
      if blocks != [] {
        UnsentUnchanged(blocks[1..]);
      }
    }

    lemma {:induction false} UnsentAppend(a: seq<MessageBlock>, b: MessageBlock)
      requires b.rd <= |b.data|
      ensures Unsent(a + [b]) == Unsent(a) + [b.data[b.rd..]]
    {
      if a == [] {
        assert a + [b] == [b];
      } else {
        UnsentAppend(a[1..], b);
        assert (a + [b])[1..] == a[1..] + [b];
      }
    }

    lemma UnsentFront(b: MessageBlock, q: seq<MessageBlock>)
      requires b.rd <= |b.data|
      ensures Unsent([b] + q) == [b.data[b.rd..]] + Unsent(q)
    {
      assert ([b] + q)[1..] == q;
    }

    constructor ()
      ensures Valid() && State() == Fresh()
    {
      queue, wakeup, failed, sent := [], false, false, [];
    }

    /** Try to send a block that is not queued; queue its remainder in front. */
    method NonblockingPut(block: MessageBlock, c: Choice) returns (value: int)
      requires block.rd < |block.data| && block !in queue
      requires Possible(c.send, block.data[block.rd..])
      modifies this, block
      ensures var was := old(block.data[block.rd..]);
              var r := NonblkPut(old(State()), was, c);
              value == r.value && State() == r.tx
      ensures queue == old(queue) || (queue == [block] + old(queue) && block.rd < |block.data|)
      ensures wakeup == (old(wakeup) || queue != old(queue))
    {
      match c.send
      case Broken(bt) =>
        SendN(block, bt);
        failed := true;
        return -1;
      case Blocked(bt) =>
        SendN(block, bt);
        if !c.room { return -1; }
        // the block is queued first and its read pointer moved afterwards
        Requeue(block);
        Advance(block, bt);
        value := bt;
      case Sent(n) =>
        SendN(block, n);
        if n < |block.data| - block.rd {
          Advance(block, n);
          if !c.room { return -1; }
          Requeue(block);
        }
        value := n;
    }

    /** The socket takes the next n bytes of the block. */
    method SendN(block: MessageBlock, n: nat)
      requires block.rd + n <= |block.data|
      modifies this`sent
      ensures sent == old(sent) + block.data[block.rd..][..n]
    {
      sent := sent + block.data[block.rd..block.rd + n];
      assert block.data[block.rd..block.rd + n] == block.data[block.rd..][..n];
    }

    /** Move the read pointer past bytes that were sent. */
    method Advance(block: MessageBlock, n: nat)
      requires block.rd + n <= |block.data|
      requires block !in queue || (queue[0] == block && block !in queue[1..])
      modifies block
      ensures block.rd == old(block.rd) + n
      ensures block.data[block.rd..] == old(block.data[block.rd..])[n..]
      ensures Unsent(queue) == if block !in queue then old(Unsent(queue))
                               else [block.data[block.rd..]] + old(Unsent(queue))[1..]
    {
      block.rd := block.rd + n;
      if block !in queue {
        UnsentUnchanged(queue);
      } else {
        UnsentUnchanged(queue[1..]);
      }
    }

    /** Put the block in front of the queue and ask for a write wakeup. */
    method Requeue(block: MessageBlock)
      requires block.rd <= |block.data|
      modifies this`queue, this`wakeup
      ensures queue == [block] + old(queue) && wakeup
      ensures Unsent(queue) == [block.data[block.rd..]] + old(Unsent(queue))
    {
      UnsentFront(block, queue);
      queue := [block] + queue;
      wakeup := true;
    }

    /** put of one consolidated block. */
    method PutBlock(block: MessageBlock, c: Choice) returns (value: int)
      requires Valid() && block.rd < |block.data| && block !in queue
      requires queue == [] ==> Possible(c.send, block.data[block.rd..])
      modifies this, block
      ensures Valid()
      ensures var r := Put(old(State()), old(block.data[block.rd..]), c);
              value == r.value && State() == r.tx
    {
      if queue == [] {
        value := NonblockingPut(block, c);
      } else if c.room {
        UnsentAppend(queue, block);
        queue := queue + [block];
        value := |queue|;
      } else {
        value := -1;
      }
    }

    /** put of an event: nothing is sent unless the connection is established; the header,
        when there is one, is chained in front of the data. */
    method PutEvent(header: seq<byte>, data: seq<seq<byte>>, c: Choice) returns (value: int)
      requires Valid() && |data| <= 1 && header + Flatten(data) != []
      requires queue == [] && !failed ==> Possible(c.send, header + Flatten(data))
      modifies this
      ensures Valid()
      ensures old(failed) ==> value == -1 && State() == old(State())
      ensures !old(failed) ==>
        var r := Put(old(State()), header + Flatten(data), c);
        value == r.value && State() == r.tx
    {
      if failed { return -1; }
      var chain := data;
      if |header| > 0 {
        chain := [header] + chain;
        assert chain[1..] == data;
      } else {
        assert header + Flatten(data) == Flatten(data);
      }
      ghost var q := queue;
      var block := Consolidate(chain);
      assert block.data[block.rd..] == Flatten(chain);
      UnsentUnchanged(q);
      value := PutBlock(block, c);
    }

    /** Write wakeup. */
    method Output(c: Choice)
      requires Valid()
      requires queue != [] ==> Possible(c.send, queue[0].data[queue[0].rd..])
      modifies this, queue
      ensures Valid()
      ensures State() == HandleOutput(old(State()), c)
    {
      if queue == [] { return; }
      var block := TakeHead();
      ghost var rest := queue;
      var value := NonblockingPut(block, c);
      assert queue != rest ==> queue[1..] == rest;
      if value != 0 && queue == [] {
        wakeup := false;
      }
    }

    method TakeHead() returns (block: MessageBlock)
      requires Valid() && queue != []
      modifies this`queue
      ensures old(queue) == [block] + queue && block !in queue
      ensures old(State()).queue == [block.data[block.rd..]] + Unsent(queue)
    {
      block := queue[0];
      queue := queue[1..];
    }

    /** Flatten a header/data chain into one block. */
    method Consolidate(chain: seq<seq<byte>>) returns (block: MessageBlock)
      ensures fresh(block) && block.rd == 0 && block.data == Flatten(chain)
    {
      var len := 0;
      var i := 0;
      while i < |chain|
        invariant 0 <= i <= |chain|
        invariant len == |Flatten(chain[..i])|
      {
        FlattenSnoc(chain, i);
        len := len + |chain[i]|;
        i := i + 1;
      }
      assert chain[..i] == chain;
      var buf := new byte[len];
      var wr := 0;
      i := 0;
      while i < |chain|
        invariant 0 <= i <= |chain|
        invariant wr == |Flatten(chain[..i])| <= len
        invariant buf[..wr] == Flatten(chain[..i])
      {
        FlattenSnoc(chain, i);
        FlattenPrefixFits(chain, i + 1);
        CopyIn(buf, wr, chain[i]);
        wr := wr + |chain[i]|;
        i := i + 1;
      }
      assert chain[..i] == chain;
      assert buf[..] == buf[..wr];
      block := new MessageBlock(buf[..]);
    }
  }

  lemma FlattenSnoc(chain: seq<seq<byte>>, i: nat)
    requires i < |chain|
    ensures Flatten(chain[..i + 1]) == Flatten(chain[..i]) + chain[i]
  {
    assert chain[..i + 1] == chain[..i] + [chain[i]];
    FlattenAppend(chain[..i], [chain[i]]);
    assert Flatten([chain[i]]) == chain[i] + Flatten([]);
  }

  lemma FlattenPrefixFits(chain: seq<seq<byte>>, i: nat)
    requires i <= |chain|
    ensures |Flatten(chain[..i])| <= |Flatten(chain)|
  {
    assert chain == chain[..i] + chain[i..];
    FlattenAppend(chain[..i], chain[i..]);
  }
}
