/** The GETBLOCK protocol as functions: one reaction per inbound frame, one move per atomic section of a read. */
module GetBlockSpec {
  import opened CanTypes
  import opened Codec
  import opened Blocks

  // ---------- State ----------

  datatype SessionRecord = SessionRecord(
    peer: Address,
    address: Payload,
    numBlocks: nat,
    blocks: seq<Payload>,
    accepted: bool)
  {
    ghost predicate WellFormed() {
      && accepted
      && 1 <= numBlocks <= 64
      && |blocks| == numBlocks
      && forall i :: 0 <= i < numBlocks ==> |blocks[i]| == 8
    }
  }

  /** One inbound read transaction: the response, cut into blocks, kept for retransmission. */
  type Session = s: SessionRecord | s.WellFormed()
    witness SessionRecord(BROADCAST, [], 1, [[0, 0, 0, 0, 0, 0, 0, 0]], true)

  datatype PendingRecord = PendingRecord(
    waitingAck: bool,
    acked: bool,
    waitingTransfers: bool,
    done: bool,
    ok: bool,
    peer: Address,
    numBlocks: nat,
    blocks: seq<Payload>,
    received: seq<bool>)
  {
    ghost predicate WellFormed() {
      waitingTransfers ==> |blocks| == |received| == numBlocks
    }
  }

  /** The record shared by the thread that runs a read and the thread that delivers frames. */
  type Pending = p: PendingRecord | p.WellFormed()
    witness PendingRecord(false, false, false, false, false, BROADCAST, 0, [], [])

  const CLEARED: Pending := PendingRecord(false, false, false, false, false, BROADCAST, 0, [], [])

  datatype Node = Node(sessions: map<Address, Session>, pending: Pending, lastData: seq<Byte>)

  datatype Packet = Packet(to: Address, from: Address, msg: GetMsg, data: Payload)

  /** What the application answers to a read request, if it has a handler. */
  datatype Answer = NoHandler | Declines | Provides(response: seq<Byte>)

  /** A response that was stored for a reader. */
  datatype Service = Service(to: Address, response: seq<Byte>)

  datatype Reaction = Reaction(node: Node, replies: seq<Packet>, served: seq<Service>)

  // ---------- Responder ----------

  function Reply(me: Address, to: Address, kind: GetKind, low6: Low6, data: Payload): Packet {
    Packet(to, me, GetMsg(kind, low6), data)
  }

  /** A response is usable if it fills the requested blocks exactly and the request names an address. */
  predicate Usable(low6: Low6, data: Payload, answer: Answer) {
    && answer.Provides?
    && |answer.response| <= MAX_BLOCK_BYTES
    && |answer.response| == (low6 + 1) * FRAME_MAX_DATA
    && data != []
  }

  function OpenSession(from: Address, low6: Low6, data: Payload, response: seq<Byte>): Session
    requires |response| == 8 * (low6 + 1)
  {
    SessionRecord(from, data, low6 + 1, Slices(response, low6 + 1), true)
  }

  function OnRequest(me: Address, node: Node, from: Address, low6: Low6, data: Payload, answer: Answer): Reaction {
    if Usable(low6, data, answer) then
      Reaction(node.(sessions := node.sessions[from := OpenSession(from, low6, data, answer.response)]),
               [Reply(me, from, GetKind.Ack, low6, data)], [Service(from, answer.response)])
    else
      Reaction(node, [Reply(me, from, GetKind.Nack, low6, data)], [])
  }

  /** The transfers a start frame asks for, among the first k blocks. */
  function Selected(me: Address, to: Address, blocks: seq<Payload>, bitmap: Payload, k: nat): seq<Packet>
    requires k <= |blocks| <= 64
  {
    if k == 0 then []
    else
      Selected(me, to, blocks, bitmap, k - 1)
      + if BitmapBitIsSet(bitmap, k - 1) && blocks[k - 1] != []
        then [Reply(me, to, GetKind.Transfer, k - 1, blocks[k - 1])] else []
  }

  function OnStart(me: Address, node: Node, from: Address, low6: Low6, data: Payload): Reaction {
    if from in node.sessions && node.sessions[from].accepted then
      Reaction(node, Selected(me, from, node.sessions[from].blocks, data, node.sessions[from].numBlocks), [])
    else
      Reaction(node, [Reply(me, from, GetKind.Nack, low6, data)], [])
  }

  // ---------- Replies seen by the initiator ----------

  function Stored(p: Pending, i: nat, data: Payload): Pending
    requires p.waitingTransfers && i < p.numBlocks
  {
    p.(blocks := p.blocks[i := data], received := p.received[i := true])
  }

  predicate TakesTransfer(p: Pending, from: Address, low6: Low6) {
    p.waitingTransfers && p.peer == from && low6 < p.numBlocks
  }

  function OnTransfer(node: Node, from: Address, low6: Low6, data: Payload): Node {
    if TakesTransfer(node.pending, from, low6) then
      var stored := Stored(node.pending, low6, data);
      if AllBlocksReceived(stored.received)
      then node.(pending := stored.(done := true, ok := true), lastData := Flatten(stored.blocks))
      else node.(pending := stored)
    else node
  }

  function OnAnswer(p: Pending, from: Address, kind: GetKind): Pending {
    if kind.Ack? && p.waitingAck && p.peer == from then p.(acked := true, waitingAck := false)
    else if kind.Nack? && (p.waitingAck || p.waitingTransfers) && p.peer == from then p.(done := true, ok := false)
    else p
  }

  /** Everything one GETBLOCK frame does to a node. */
  function React(me: Address, node: Node, from: Address, msg: GetMsg, data: Payload, answer: Answer): Reaction {
    match msg.kind
    case Request => OnRequest(me, node, from, msg.low6, data, answer)
    case Start => OnStart(me, node, from, msg.low6, data)
    case Abort => Reaction(node.(sessions := node.sessions - {from}), [], [])
    case Transfer => Reaction(OnTransfer(node, from, msg.low6, data), [], [])
    case _ => Reaction(node.(pending := OnAnswer(node.pending, from, msg.kind)), [], [])
  }

  // ---------- Initiator ----------

  const READ_BLOCKS: nat := 64

  datatype Job = Job(to: Address, address: seq<Byte>)

  datatype Pc = Begin | SendRequest | AwaitAck | SendStart | AwaitTransfers | Returned(result: bool)

  datatype Move = Move(pc: Pc, pending: Pending, sent: seq<Packet>)

  const GIVE_UP := Move(Returned(false), CLEARED, [])

  function Claimed(job: Job): Pending {
    CLEARED.(waitingAck := true, peer := job.to, numBlocks := READ_BLOCKS)
  }

  /** The record at the start of the transfer phase: nothing received yet. */
  function Collecting(p: Pending): Pending {
    p.(waitingTransfers := true, numBlocks := p.numBlocks,
       blocks := seq(p.numBlocks, i => []), received := seq(p.numBlocks, i => false))
  }

  const ALL_BLOCKS: Payload := [0xFF, 0xFF, 0xFF, 0xFF, 0xFF, 0xFF, 0xFF, 0xFF]

  function RequestPacket(me: Address, job: Job): Packet {
    Packet(job.to, me, GetMsg(GetKind.Request, READ_BLOCKS - 1), FirstBytes(job.address))
  }

  function StartPacket(me: Address, job: Job): Packet {
    Packet(job.to, me, GetMsg(GetKind.Start, 0), ALL_BLOCKS)
  }

  /** What leaving state pc does, given the pending record and whether the frame sender takes the frame. */
  function Advance(me: Address, job: Job, pc: Pc, p: Pending, sendOk: bool): Move {
    match pc
    case Begin =>
      if job.address == [] then Move(Returned(false), p, []) else Move(SendRequest, Claimed(job), [])
    case SendRequest =>
      if sendOk then Move(AwaitAck, p, [RequestPacket(me, job)]) else GIVE_UP
    case AwaitAck =>
      if p.acked && !p.done then Move(SendStart, Collecting(p), []) else GIVE_UP
    case SendStart =>
      if sendOk then Move(AwaitTransfers, p, [StartPacket(me, job)]) else GIVE_UP
    case AwaitTransfers =>
      Move(Returned(p.done && p.ok), CLEARED, [])
    case Returned(_) =>
      Move(pc, p, [])
  }

  // ---------- Facts about single reactions ----------

  predicate IsRequestKind(k: GetKind) {
    k.Request? || k.Start? || k.Abort?
  }

  function SessionOf(node: Node, peer: Address): Option<Session> {
    if peer in node.sessions then Some(node.sessions[peer]) else None
  }

  /** The transfer of block i goes out if and only if it is selected. */
  ghost predicate Sends(ps: seq<Packet>, me: Address, to: Address, blocks: seq<Payload>, bitmap: Payload, i: nat)
    requires i < |blocks| <= 64
  {
    BitmapBitIsSet(bitmap, i) <==> Reply(me, to, GetKind.Transfer, i, blocks[i]) in ps
  }

  /** The packet is the transfer of one of the first k blocks. */
  ghost predicate IsTransferOf(q: Packet, me: Address, to: Address, blocks: seq<Payload>, k: nat)
    requires k <= |blocks| <= 64
  {
    q.msg.low6 < k && q == Reply(me, to, GetKind.Transfer, q.msg.low6, blocks[q.msg.low6])
  }

  /** A start frame yields exactly the transfers of the selected blocks. */
  lemma {:induction false} SelectedExactly(me: Address, to: Address, blocks: seq<Payload>, bitmap: Payload, k: nat)
    requires k <= |blocks| <= 64
    requires forall i :: 0 <= i < |blocks| ==> |blocks[i]| == 8
    ensures var ps := Selected(me, to, blocks, bitmap, k);
            && |ps| <= k
            && (forall i: nat :: i < k ==> Sends(ps, me, to, blocks, bitmap, i))
            && (forall q :: q in ps ==> IsTransferOf(q, me, to, blocks, k))
  {
    if k > 0 {
      SelectedExactly(me, to, blocks, bitmap, k - 1);
      var rest, ps := Selected(me, to, blocks, bitmap, k - 1), Selected(me, to, blocks, bitmap, k);
      var last := Reply(me, to, GetKind.Transfer, k - 1, blocks[k - 1]);
      forall q | q in rest
        ensures q != last
      {
        assert IsTransferOf(q, me, to, blocks, k - 1);
      }
      assert ps == if BitmapBitIsSet(bitmap, k - 1) then rest + [last] else rest;
      forall i: nat | i < k
        ensures Sends(ps, me, to, blocks, bitmap, i)
      {
        if i < k - 1 {
          assert Sends(rest, me, to, blocks, bitmap, i);
        }
      }
      forall q | q in ps
        ensures IsTransferOf(q, me, to, blocks, k)
      {
        if q != last {
          assert IsTransferOf(q, me, to, blocks, k - 1);
        }
      }
    }
  }

  /** Sequence numbers below k, strictly increasing. */
  ghost predicate InOrder(ps: seq<Packet>, k: nat) {
    && (forall x :: 0 <= x < |ps| ==> ps[x].msg.low6 < k)
    && (forall x, y :: 0 <= x < y < |ps| ==> ps[x].msg.low6 < ps[y].msg.low6)
  }

  /** They are sent in increasing order, each block once. */
  lemma {:induction false} SelectedInOrder(me: Address, to: Address, blocks: seq<Payload>, bitmap: Payload, k: nat)
    requires k <= |blocks| <= 64
    ensures InOrder(Selected(me, to, blocks, bitmap, k), k)
  {
    if k > 0 {
      SelectedInOrder(me, to, blocks, bitmap, k - 1);
    }
  }

  /** A frame touches only the session of its sender; a refused request leaves even that one alone. */
  lemma ReactLeavesOthers(
      me: Address, node: Node, from: Address, msg: GetMsg, data: Payload, answer: Answer, other: Address)
    requires other != from || msg.kind.Start? || (msg.kind.Request? && !Usable(msg.low6, data, answer))
    ensures SessionOf(React(me, node, from, msg, data, answer).node, other) == SessionOf(node, other)
  {
  }

  /** What a frame causes is addressed to its sender; at most one reply, or 64 transfers for a start frame. */
  lemma ReactAnswersSender(me: Address, node: Node, from: Address, msg: GetMsg, data: Payload, answer: Answer)
    ensures var r := React(me, node, from, msg, data, answer);
            && |r.replies| <= (if msg.kind.Start? then 64 else if msg.kind.Request? then 1 else 0)
            && (forall q :: q in r.replies ==> q.from == me && q.to == from && !IsRequestKind(q.msg.kind))
            && (forall d :: d in r.served ==> d.to == from)
  {
    if msg.kind.Start? && from in node.sessions {
      SelectedExactly(me, from, node.sessions[from].blocks, data, node.sessions[from].numBlocks);
    }
  }

  /** The start frame of a read selects every one of the 64 blocks. */
  lemma AllBlocksSelected(i: nat)
    ensures BitmapBitIsSet(ALL_BLOCKS, i) <==> i < READ_BLOCKS
  {
    MaskBit(0, i % 8);
  }
}
