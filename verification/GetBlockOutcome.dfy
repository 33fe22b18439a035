/** Exactly when a read returns true, and what it leaves in lastData, in terms of the frames its node receives. */
module GetBlockOutcome {
  import opened CanTypes
  import opened Codec
  import opened Blocks
  import opened GetBlockSpec
  import opened GetBlockRun

  lemma {:induction false} AbsorbConcat(me: Address, node: Node, b1: seq<Inbound>, b2: seq<Inbound>)
    ensures Absorb(me, node, b1 + b2) == Absorb(me, Absorb(me, node, b1), b2)
  {
    if b2 == [] {
      assert b1 + b2 == b1;
    } else {
      assert (b1 + b2)[..|b1 + b2| - 1] == b1 + b2[..|b2| - 1];
      AbsorbConcat(me, node, b1, b2[..|b2| - 1]);
    }
  }

  /** Outside the two waiting phases no frame touches the record or the data. */
  lemma {:induction false} NotWaiting(me: Address, node: Node, batch: seq<Inbound>)
    requires !node.pending.waitingAck && !node.pending.waitingTransfers
    ensures Absorb(me, node, batch).pending == node.pending && Absorb(me, node, batch).lastData == node.lastData
  {
    if batch != [] {
      NotWaiting(me, node, batch[..|batch| - 1]);
    }
  }

  // ---------- What decides the request phase ----------

  /** The first acknowledgement or refusal by the peer: Some(true), Some(false), or none yet. */
  function FirstAnswer(batch: seq<Inbound>, peer: Address): Option<bool> {
    if batch == [] then None
    else
      var m := batch[|batch| - 1];
      match FirstAnswer(batch[..|batch| - 1], peer)
      case Some(b) => Some(b)
      case None => if m.from == peer && m.msg.kind.Ack? then Some(true)
                   else if m.from == peer && m.msg.kind.Nack? then Some(false) else None
  }

  function Granted(job: Job): Pending {
    Claimed(job).(acked := true, waitingAck := false)
  }

  lemma {:induction false} FirstAnswerDecides(me: Address, job: Job, node: Node, batch: seq<Inbound>)
    requires node.pending == Claimed(job)
    ensures var n := Absorb(me, node, batch);
            && n.lastData == node.lastData && !n.pending.waitingTransfers
            && match FirstAnswer(batch, job.to)
               case None => n.pending == Claimed(job)
               case Some(true) => n.pending == Granted(job)
               case Some(false) => n.pending.done
  {
    if batch != [] {
      FirstAnswerDecides(me, job, node, batch[..|batch| - 1]);
    }
  }

  // ---------- What decides the transfer phase ----------

  predicate IsTransfer(m: Inbound, peer: Address, i: nat) {
    m.from == peer && m.msg.kind.Transfer? && m.msg.low6 == i
  }

  predicate Has(batch: seq<Inbound>, peer: Address, i: nat) {
    batch != [] && (IsTransfer(batch[|batch| - 1], peer, i) || Has(batch[..|batch| - 1], peer, i))
  }

  predicate HasAll(batch: seq<Inbound>, peer: Address) {
    forall i: nat :: i < READ_BLOCKS ==> Has(batch, peer, i)
  }

  /** The payload of the peer's last transfer number i; empty if there was none. */
  function BlockFrom(batch: seq<Inbound>, peer: Address, i: nat): Payload {
    if batch == [] then []
    else if IsTransfer(batch[|batch| - 1], peer, i) then batch[|batch| - 1].data
    else BlockFrom(batch[..|batch| - 1], peer, i)
  }

  function BlocksFrom(batch: seq<Inbound>, peer: Address): seq<Payload> {
    seq(READ_BLOCKS, i requires 0 <= i => BlockFrom(batch, peer, i))
  }

  /** Whether the peer's last transfer or refusal is a transfer. */
  predicate EndsInTransfer(batch: seq<Inbound>, peer: Address) {
    batch != [] &&
    var m := batch[|batch| - 1];
    if m.from == peer && m.msg.kind.Transfer? then true
    else if m.from == peer && m.msg.kind.Nack? then false
    else EndsInTransfer(batch[..|batch| - 1], peer)
  }

  function Open(job: Job): Pending {
    Collecting(Granted(job))
  }

  ghost predicate Collected(job: Job, start: Node, n: Node, batch: seq<Inbound>) {
    var p := n.pending;
    && p.waitingTransfers && !p.waitingAck && p.peer == job.to && p.numBlocks == READ_BLOCKS
    && p.blocks == BlocksFrom(batch, job.to)
    && (forall i: nat :: i < READ_BLOCKS ==> p.received[i] == Has(batch, job.to, i))
    && (p.done && p.ok <==> HasAll(batch, job.to) && EndsInTransfer(batch, job.to))
    && n.lastData == if HasAll(batch, job.to) then Flatten(BlocksFrom(batch, job.to)) else start.lastData
  }

  lemma CollectedNothing(me: Address, job: Job, start: Node)
    requires start.pending == Open(job)
    ensures Collected(job, start, start, [])
  {
    assert !Has([], job.to, 0);
    assert BlocksFrom([], job.to) == seq(READ_BLOCKS, i => []);
  }

  lemma CollectTransfer(me: Address, job: Job, start: Node, n: Node, batch: seq<Inbound>, m: Inbound)
    requires Collected(job, start, n, batch) && m.from == job.to && m.msg.kind.Transfer?
    ensures Collected(job, start, ReactTo(me, n, m).node, batch + [m])
  {
    var more := batch + [m];
    assert more[..|more| - 1] == batch;
    var stored := Stored(n.pending, m.msg.low6, m.data);
    forall i: nat | i < READ_BLOCKS
      ensures BlockFrom(more, job.to, i) == if i == m.msg.low6 then m.data else BlockFrom(batch, job.to, i)
      ensures Has(more, job.to, i) <==> i == m.msg.low6 || Has(batch, job.to, i)
      ensures stored.received[i] == Has(more, job.to, i)
    {
    }
    assert stored.blocks == BlocksFrom(more, job.to);
    assert AllBlocksReceived(stored.received) <==> HasAll(more, job.to);
  }

  /** While collecting, other frames change at most the verdict: the peer may refuse. */
  lemma OtherFrame(me: Address, n: Node, m: Inbound)
    requires n.pending.waitingTransfers && !n.pending.waitingAck && !(m.from == n.pending.peer && m.msg.kind.Transfer?)
    ensures var r := ReactTo(me, n, m).node;
            && r.lastData == n.lastData
            && r.pending == if m.from == n.pending.peer && m.msg.kind.Nack?
                            then n.pending.(done := true, ok := false) else n.pending
  {
  }

  lemma CollectOther(me: Address, job: Job, start: Node, n: Node, batch: seq<Inbound>, m: Inbound)
    requires Collected(job, start, n, batch) && !(m.from == job.to && m.msg.kind.Transfer?)
    ensures Collected(job, start, ReactTo(me, n, m).node, batch + [m])
  {
    var more := batch + [m];
    assert more[..|more| - 1] == batch;
    OtherFrame(me, n, m);
    forall i: nat | i < READ_BLOCKS
      ensures BlockFrom(more, job.to, i) == BlockFrom(batch, job.to, i)
      ensures Has(more, job.to, i) == Has(batch, job.to, i)
    {
    }
    assert BlocksFrom(more, job.to) == BlocksFrom(batch, job.to);
  }

  lemma {:induction false} TransfersDecide(me: Address, job: Job, start: Node, batch: seq<Inbound>)
    requires start.pending == Open(job)
    ensures Collected(job, start, Absorb(me, start, batch), batch)
  {
    if batch == [] {
      CollectedNothing(me, job, start);
    } else {
      var prefix, m := batch[..|batch| - 1], batch[|batch| - 1];
      TransfersDecide(me, job, start, prefix);
      assert batch == prefix + [m];
      if m.from == job.to && m.msg.kind.Transfer? {
        CollectTransfer(me, job, start, Absorb(me, start, prefix), prefix, m);
      } else {
        CollectOther(me, job, start, Absorb(me, start, prefix), prefix, m);
      }
    }
  }

  // ---------- The run ----------

  ghost predicate Starts(job: Job, sched: Schedule) {
    && job.address != []
    && sched(1).sendOk
    && FirstAnswer(sched(1).inbound + sched(2).inbound, job.to) == Some(true)
  }

  /** The frames handled in the transfer phase. */
  function TransferBatch(sched: Schedule): seq<Inbound> {
    if sched(3).sendOk then sched(3).inbound + sched(4).inbound else sched(3).inbound
  }

  /** Everything that makes a read succeed. */
  ghost predicate Succeeds(job: Job, sched: Schedule) {
    && Starts(job, sched) && sched(3).sendOk
    && HasAll(TransferBatch(sched), job.to) && EndsInTransfer(TransferBatch(sched), job.to)
  }

  /** What lastData holds after a read that started with earlier. */
  function DataAfter(job: Job, sched: Schedule, earlier: seq<Byte>, starts: bool): seq<Byte> {
    if starts && HasAll(TransferBatch(sched), job.to)
    then Flatten(BlocksFrom(TransferBatch(sched), job.to)) else earlier
  }

  /**
   * The read has returned what Succeeds says, has cleared its record and left the right data; on success it has
   * sent its two frames.
   */
  ghost predicate Decided(me: Address, job: Job, sched: Schedule, start: Node, c: Config) {
    && c.pc == Returned(Succeeds(job, sched))
    && c.node.pending == CLEARED
    && (Succeeds(job, sched) ==> c.sent == [RequestPacket(me, job), StartPacket(me, job)])
    && c.node.lastData == DataAfter(job, sched, start.lastData, Starts(job, sched))
  }

  ghost predicate Reached(c: Config, pc: Pc, p: Pending, data: seq<Byte>) {
    c.pc == pc && c.node.pending == p && c.node.lastData == data
  }

  lemma RequestSections(me: Address, job: Job, node: Node, s0: Slot, s1: Slot, s2: Slot)
    requires node.pending == CLEARED
    ensures var c := Section(me, job, Section(me, job, Section(me, job, Config(Begin, node, []), s0), s1), s2);
            if job.address != [] && s1.sendOk && FirstAnswer(s1.inbound + s2.inbound, job.to) == Some(true)
            then Reached(c, SendStart, Open(job), node.lastData) && c.sent == [RequestPacket(me, job)]
            else Reached(c, Returned(false), CLEARED, node.lastData)
  {
    NotWaiting(me, node, s0.inbound);
    var c1 := Section(me, job, Config(Begin, node, []), s0);
    if job.address != [] {
      assert Reached(c1, SendRequest, Claimed(job), node.lastData);
      AckSections(me, job, c1, s1, s2);
    }
  }

  lemma AckSections(me: Address, job: Job, c: Config, s1: Slot, s2: Slot)
    requires c.pc == SendRequest && c.node.pending == Claimed(job)
    ensures var d := Section(me, job, Section(me, job, c, s1), s2);
            if s1.sendOk && FirstAnswer(s1.inbound + s2.inbound, job.to) == Some(true)
            then Reached(d, SendStart, Open(job), c.node.lastData) && d.sent == c.sent + [RequestPacket(me, job)]
            else Reached(d, Returned(false), CLEARED, c.node.lastData)
  {
    FirstAnswerDecides(me, job, c.node, s1.inbound);
    FirstAnswerDecides(me, job, c.node, s1.inbound + s2.inbound);
    AbsorbConcat(me, c.node, s1.inbound, s2.inbound);
  }

  lemma TransferSections(me: Address, job: Job, c: Config, s3: Slot, s4: Slot)
    requires c.pc == SendStart && c.node.pending == Open(job)
    ensures var d := Section(me, job, Section(me, job, c, s3), s4);
            var batch := if s3.sendOk then s3.inbound + s4.inbound else s3.inbound;
            && d.pc == Returned(s3.sendOk && HasAll(batch, job.to) && EndsInTransfer(batch, job.to))
            && d.node.pending == CLEARED
            && (s3.sendOk ==> d.sent == c.sent + [StartPacket(me, job)])
            && d.node.lastData == if HasAll(batch, job.to) then Flatten(BlocksFrom(batch, job.to)) else c.node.lastData
  {
    if s3.sendOk {
      TransfersDecide(me, job, c.node, s3.inbound + s4.inbound);
      AbsorbConcat(me, c.node, s3.inbound, s4.inbound);
    } else {
      TransfersDecide(me, job, c.node, s3.inbound);
    }
  }

  /**
   * A read always returns, with the pending record cleared. It returns true if and only if the peer's
   * first answer to the request is an acknowledgement, both frames are taken for sending, every block
   * arrives in the transfer phase, and the peer does not refuse after its last transfer. lastData is
   * replaced exactly when every block has arrived, even if the read then fails.
   */
  lemma ReadOutcome(me: Address, job: Job, node: Node, sched: Schedule)
    requires node.pending == CLEARED
    ensures Decided(me, job, sched, node, After(me, job, node, sched, 5))
  {
    var c0, c1, c2 := After(me, job, node, sched, 0), After(me, job, node, sched, 1), After(me, job, node, sched, 2);
    var c3, c4 := After(me, job, node, sched, 3), After(me, job, node, sched, 4);
    RequestSections(me, job, node, sched(0), sched(1), sched(2));
    assert c3 == Section(me, job, Section(me, job, Section(me, job, Config(Begin, node, []), sched(0)), sched(1)),
        sched(2));
    if Starts(job, sched) {
      TransferSections(me, job, c3, sched(3), sched(4));
    } else {
      ReturnedIsFinal(me, job, node, sched, 3, 5);
    }
  }

  /** Wherever a read is seen to have returned, it is as decided. */
  lemma ReturnedResult(me: Address, job: Job, node: Node, sched: Schedule, k: nat)
    requires node.pending == CLEARED && After(me, job, node, sched, k).pc.Returned?
    ensures Decided(me, job, sched, node, After(me, job, node, sched, k))
  {
    ReadOutcome(me, job, node, sched);
    if k <= 5 {
      ReturnedIsFinal(me, job, node, sched, k, 5);
    } else {
      ReturnedIsFinal(me, job, node, sched, 5, k);
    }
  }

  // ---------- lastData and failed reads ----------

  /** Whatever node runs it, the read leaves the data as it was. */
  ghost predicate KeepsData(me: Address, job: Job, sched: Schedule) {
    forall node: Node :: node.pending == CLEARED ==> After(me, job, node, sched, 5).node.lastData == node.lastData
  }

  /** A node about to read that holds this data. */
  function Holding(data: seq<Byte>): Node {
    Node(map[], CLEARED, data)
  }

  /** A read that fails keeps the data of the node that runs it if and only if it never collected all blocks. */
  lemma FailedReadKeepsData(me: Address, job: Job, sched: Schedule)
    requires !Succeeds(job, sched)
    ensures KeepsData(me, job, sched) <==> !(Starts(job, sched) && HasAll(TransferBatch(sched), job.to))
  {
    if Starts(job, sched) && HasAll(TransferBatch(sched), job.to) {
      var other := Holding(Flatten(BlocksFrom(TransferBatch(sched), job.to)) + [0]);
      ReadOutcome(me, job, other, sched);
      assert After(me, job, other, sched, 5).node.lastData != other.lastData;
    } else {
      forall node: Node | node.pending == CLEARED
        ensures After(me, job, node, sched, 5).node.lastData == node.lastData
      {
        ReadOutcome(me, job, node, sched);
      }
    }
  }

  /** A peer that acknowledges, sends every block and then refuses. */
  function Fickle(peer: Address): Schedule {
    var ack := [Inbound(peer, GetMsg(GetKind.Ack, 63), [7], Declines)];
    (k: nat) => Slot(if k == 2 then ack else if k == 4 then FickleBatch(peer) else [], true)
  }

  function FickleBatch(peer: Address): seq<Inbound> {
    seq(64, i requires 0 <= i < 64 => Inbound(peer, GetMsg(GetKind.Transfer, i), [5], Declines))
    + [Inbound(peer, GetMsg(GetKind.Nack, 0), [], Declines)]
  }

  lemma FickleHasAll(peer: Address)
    ensures HasAll(FickleBatch(peer), peer) && !EndsInTransfer(FickleBatch(peer), peer)
  {
    var batch := FickleBatch(peer);
    forall i: nat | i < READ_BLOCKS
      ensures Has(batch, peer, i)
    {
      assert IsTransfer(batch[i], peer, i);
      BlockIsFromBatch(batch, peer, i);
    }
  }

  lemma FickleStarts(job: Job)
    requires job.address != []
    ensures Starts(job, Fickle(job.to)) && TransferBatch(Fickle(job.to)) == FickleBatch(job.to)
  {
    var ack := Fickle(job.to)(2).inbound;
    assert Fickle(job.to)(1).inbound + ack == ack;
    assert FirstAnswer(ack[..0], job.to) == None;
    assert FirstAnswer(ack, job.to) == Some(true);
    assert [] + FickleBatch(job.to) == FickleBatch(job.to);
  }

  /** Every read that names an address can fail and yet replace the data: the peer sends all blocks and then refuses. */
  lemma FailedReadCanReplaceData(me: Address, job: Job)
    requires job.address != []
    ensures exists node: Node, sched :: node.pending == CLEARED && After(me, job, node, sched, 5).pc == Returned(false)
                                  && After(me, job, node, sched, 5).node.lastData != node.lastData
  {
    var sched := Fickle(job.to);
    FickleStarts(job);
    FickleHasAll(job.to);
    assert !Succeeds(job, sched);
    var data := Flatten(BlocksFrom(TransferBatch(sched), job.to));
    ReadOutcome(me, job, Holding(data + [0]), sched);
    assert After(me, job, Holding(data + [0]), sched, 5).node.lastData == data;
  }

  // ---------- Reassembly does not depend on order ----------

  /** Transfers with the same number carry the same block. */
  predicate Consistent(batch: seq<Inbound>, peer: Address) {
    forall x, y :: x in batch && y in batch && IsTransfer(x, peer, x.msg.low6) && IsTransfer(y, peer, x.msg.low6) ==>
        x.data == y.data
  }

  lemma {:induction false} BlockIsFromBatch(batch: seq<Inbound>, peer: Address, i: nat)
    ensures Has(batch, peer, i) <==> exists m :: m in batch && IsTransfer(m, peer, i)
    ensures Has(batch, peer, i) ==>
        exists m :: m in batch && IsTransfer(m, peer, i) && m.data == BlockFrom(batch, peer, i)
    ensures !Has(batch, peer, i) ==> BlockFrom(batch, peer, i) == []
  {
    if batch != [] {
      var prefix, m := batch[..|batch| - 1], batch[|batch| - 1];
      BlockIsFromBatch(prefix, peer, i);
      assert batch == prefix + [m];
      if IsTransfer(m, peer, i) {
        assert m in batch;
      }
    }
  }

  /** Any rearrangement of consistent transfers is collected to the same data. */
  lemma OrderDoesNotMatter(x: seq<Inbound>, y: seq<Inbound>, peer: Address)
    requires multiset(x) == multiset(y) && Consistent(x, peer)
    ensures HasAll(x, peer) == HasAll(y, peer)
    ensures BlocksFrom(x, peer) == BlocksFrom(y, peer)
  {
    assert forall m :: m in x <==> m in multiset(x);
    assert forall m :: m in y <==> m in multiset(y);
    forall i: nat | i < READ_BLOCKS
      ensures Has(x, peer, i) == Has(y, peer, i) && BlockFrom(x, peer, i) == BlockFrom(y, peer, i)
    {
      BlockIsFromBatch(x, peer, i);
      BlockIsFromBatch(y, peer, i);
    }
  }

  // ---------- Selective retransmission ----------

  /** All that a series of start frames with any bitmaps does to a responder. */
  function Served(me: Address, node: Node, from: Address, bitmaps: seq<Payload>): Reaction {
    if bitmaps == [] then Reaction(node, [], [])
    else
      var before := Served(me, node, from, bitmaps[..|bitmaps| - 1]);
      var r := React(me, before.node, from, GetMsg(GetKind.Start, 0), bitmaps[|bitmaps| - 1], NoHandler);
      Reaction(r.node, before.replies + r.replies, before.served + r.served)
  }

  lemma StartedBlocks(me: Address, node: Node, from: Address, bitmap: Payload, response: seq<Byte>, q: Packet)
    requires |response| == 8 * READ_BLOCKS
    requires from in node.sessions && node.sessions[from].blocks == Slices(response, READ_BLOCKS)
    requires q in React(me, node, from, GetMsg(GetKind.Start, 0), bitmap, NoHandler).replies
    ensures q.msg.kind.Transfer? && q.data == response[8 * q.msg.low6..8 * q.msg.low6 + 8]
  {
    SelectedExactly(me, from, node.sessions[from].blocks, bitmap, 64);
    assert IsTransferOf(q, me, from, node.sessions[from].blocks, 64);
  }

  lemma {:induction false} ServedBlocks(
    me: Address, node: Node, from: Address, bitmaps: seq<Payload>, response: seq<Byte>)
    requires |response| == 8 * READ_BLOCKS
    requires from in node.sessions && node.sessions[from].blocks == Slices(response, READ_BLOCKS)
    ensures Served(me, node, from, bitmaps).node == node
    ensures forall q :: q in Served(me, node, from, bitmaps).replies ==>
              q.msg.kind.Transfer? && q.data == response[8 * q.msg.low6..8 * q.msg.low6 + 8]
  {
    if bitmaps != [] {
      var less, bitmap := bitmaps[..|bitmaps| - 1], bitmaps[|bitmaps| - 1];
      ServedBlocks(me, node, from, less, response);
      forall q | q in React(me, node, from, GetMsg(GetKind.Start, 0), bitmap, NoHandler).replies
        ensures q.msg.kind.Transfer? && q.data == response[8 * q.msg.low6..8 * q.msg.low6 + 8]
      {
        StartedBlocks(me, node, from, bitmap, response, q);
      }
    }
  }

  /**
   * However often and for whichever blocks the responder is asked to start again, it keeps what it has, and a
   * reader that gets every block from those transfers, among any other frames, ends up with the response.
   */
  lemma SelectiveRetransmission(
    me: Address, node: Node, from: Address, bitmaps: seq<Payload>, response: seq<Byte>,
    reader: Node, job: Job, batch: seq<Inbound>)
    requires |response| == 8 * READ_BLOCKS
    requires from in node.sessions && node.sessions[from].blocks == Slices(response, READ_BLOCKS)
    requires job.to == me && reader.pending == Open(job)
    requires forall m :: m in batch && m.from == me && m.msg.kind.Transfer? ==>
               Packet(from, me, m.msg, m.data) in Served(me, node, from, bitmaps).replies
    requires HasAll(batch, me)
    ensures Served(me, node, from, bitmaps).node == node
    ensures Absorb(from, reader, batch).lastData == response
  {
    ServedBlocks(me, node, from, bitmaps, response);
    forall i: nat | i < READ_BLOCKS
      ensures BlockFrom(batch, me, i) == response[8 * i..8 * i + 8]
    {
      BlockIsFromBatch(batch, me, i);
      var m :| m in batch && IsTransfer(m, me, i) && m.data == BlockFrom(batch, me, i);
      assert Packet(from, me, m.msg, m.data) in Served(me, node, from, bitmaps).replies;
    }
    assert BlocksFrom(batch, me) == Slices(response, READ_BLOCKS);
    SlicesRoundTrip(response, READ_BLOCKS);
    TransfersDecide(from, job, reader, batch);
  }
}
