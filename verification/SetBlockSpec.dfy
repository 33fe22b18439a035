/** The SETBLOCK protocol as functions: one reaction per inbound frame, one move per atomic section of a write. */
module SetBlockSpec {
  import opened CanTypes
  import opened Codec
  import opened Blocks

  // ---------- State ----------

  datatype SessionRecord = SessionRecord(
    peer: Address,
    address: Payload,
    numBlocks: nat,
    blocks: seq<Payload>,
    accepted: bool,
    done: bool)
  {
    ghost predicate WellFormed() {
      && 1 <= numBlocks <= 64
      && |blocks| == numBlocks
      && (done ==> accepted)
    }
  }

  /** One inbound write transaction. */
  type Session = s: SessionRecord | s.WellFormed() witness SessionRecord(BROADCAST, [], 1, [[]], false, false)

  /** The record shared by the thread that runs a write and the thread that delivers frames. */
  datatype Pending = Pending(
    active: bool,
    waitingRequestAck: bool,
    requestAcked: bool,
    waitingReport: bool,
    reportReceived: bool,
    done: bool,
    ok: bool,
    peer: Address,
    numBlocks: nat,
    bitmap: Payload)

  const CLEARED := Pending(false, false, false, false, false, false, false, BROADCAST, 0, [])

  datatype Node = Node(sessions: map<Address, Session>, pending: Pending)

  datatype Packet = Packet(to: Address, from: Address, msg: SetMsg, data: Payload)

  /** How the application answers if it is consulted while a frame is handled. */
  datatype Answer = NoHandler | Answered(ok: bool)

  function Accepts(answer: Answer): bool {
    answer.NoHandler? || answer.ok
  }

  /** A reassembled payload put to the application, and whether it was taken. */
  datatype Delivery = Delivery(from: Address, payload: seq<Byte>, accepted: bool)

  datatype Reaction = Reaction(node: Node, replies: seq<Packet>, deliveries: seq<Delivery>)

  // ---------- Responder ----------

  function Reply(me: Address, to: Address, kind: SetKind, low6: Low6, data: Payload): Packet {
    Packet(to, me, SetMsg(kind, low6, false), data)
  }

  function OpenSession(from: Address, low6: Low6, data: Payload): (s: Session)
    ensures s.blocks == seq(low6 + 1, i => [])
  {
    var numBlocks := low6 + 1;
    var accepted := 0 < numBlocks <= 64 && numBlocks * FRAME_MAX_DATA <= MAX_BLOCK_BYTES && data != [];
    SessionRecord(from, data, numBlocks, seq(numBlocks, i => []), accepted, false)
  }

  function OnRequest(me: Address, node: Node, from: Address, low6: Low6, data: Payload): Reaction {
    var session := OpenSession(from, low6, data);
    Reaction(node.(sessions := node.sessions[from := session]),
             [Reply(me, from, if session.accepted then SetKind.Ack else SetKind.Nack, low6, data)],
             [])
  }

  predicate Stores(node: Node, from: Address, low6: Low6) {
    from in node.sessions && node.sessions[from].accepted && low6 < node.sessions[from].numBlocks
  }

  function Store(s: Session, i: nat, data: Payload): Session
    requires i < s.numBlocks
  {
    s.(blocks := s.blocks[i := data])
  }

  function OnTransfer(me: Address, node: Node, from: Address, low6: Low6, data: Payload): Reaction {
    if Stores(node, from, low6) then
      Reaction(node.(sessions := node.sessions[from := Store(node.sessions[from], low6, data)]),
               [Reply(me, from, SetKind.Ack, low6, data)], [])
    else
      Reaction(node, [Reply(me, from, SetKind.Nack, low6, data)], [])
  }

  /** The payload a status request assembles; empty when there is nothing to hand over. */
  function Assembled(s: Session): seq<Byte> {
    if AllBlocksReceived(Flags(s.blocks)) && !s.done then Flatten(s.blocks) else []
  }

  function ReportPacket(me: Address, to: Address, s: Session): Packet {
    var bitmap := Bitmap(Flags(s.blocks));
    Packet(to, me, SetMsg(SetKind.Report, |bitmap| % 64, s.done), bitmap[..if |bitmap| <= 8 then |bitmap| else 8])
  }

  function Settle(s: Session, answer: Answer): Session
    requires s.accepted
  {
    if Assembled(s) != [] then s.(done := Accepts(answer)) else s
  }

  function OnStatusRequest(
      me: Address, node: Node, from: Address, low6: Low6, data: Payload, answer: Answer): Reaction {
    if from !in node.sessions || !node.sessions[from].accepted then
      Reaction(node, [Reply(me, from, SetKind.Nack, low6, data)], [])
    else
      var s := node.sessions[from];
      var settled := Settle(s, answer);
      Reaction(node.(sessions := node.sessions[from := settled]),
               [ReportPacket(me, from, settled)],
               if Assembled(s) != [] then [Delivery(from, Assembled(s), Accepts(answer))] else [])
  }

  function OnAbort(me: Address, node: Node, from: Address, low6: Low6, data: Payload): Reaction {
    Reaction(node.(sessions := node.sessions - {from}), [Reply(me, from, SetKind.Ack, low6, data)], [])
  }

  // ---------- Replies seen by the initiator ----------

  function Note(p: Pending, from: Address, msg: SetMsg, data: Payload): Pending {
    match msg.kind
    case Ack =>
      if p.active && p.peer == from && p.waitingRequestAck
      then p.(requestAcked := true, waitingRequestAck := false) else p
    case Nack =>
      if p.active && p.peer == from && (p.waitingRequestAck || p.waitingReport)
      then p.(done := true, ok := false) else p
    case Report =>
      if p.active && p.peer == from && p.waitingReport
      then p.(bitmap := data, done := msg.done, ok := true, reportReceived := true) else p
    case _ => p
  }

  /** Everything one SETBLOCK frame does to a node. */
  function React(me: Address, node: Node, from: Address, msg: SetMsg, data: Payload, answer: Answer): Reaction {
    match msg.kind
    case Request => OnRequest(me, node, from, msg.low6, data)
    case Transfer => OnTransfer(me, node, from, msg.low6, data)
    case StatusRequest => OnStatusRequest(me, node, from, msg.low6, data, answer)
    case Abort => OnAbort(me, node, from, msg.low6, data)
    case _ => Reaction(node.(pending := Note(node.pending, from, msg, data)), [], [])
  }

  // ---------- Initiator ----------

  datatype Job = Job(to: Address, address: seq<Byte>, data: seq<Byte>)

  predicate Admissible(job: Job) {
    job.address != [] && job.data != [] && |job.data| <= MAX_BLOCK_BYTES
  }

  /** Where a write stands; each state but the last is left by one atomic section. */
  datatype Pc =
    | Begin
    | SendRequest
    | AwaitAck
    | SendBlock(i: nat)
    | ArmReport
    | SendStatus
    | AwaitReport
    | SendAbort(success: bool)
    | Returned(result: bool)

  predicate WellPlaced(job: Job, pc: Pc) {
    && (!pc.Begin? && !pc.Returned? ==> Admissible(job))
    && (pc.SendBlock? ==> pc.i < NumBlocks(job.data))
  }

  function Claimed(job: Job): Pending {
    CLEARED.(active := true, waitingRequestAck := true, peer := job.to, numBlocks := NumBlocks(job.data))
  }

  /** Where a write stands once block i is sent. */
  function AfterBlock(job: Job, i: nat): Pc {
    if i + 1 < NumBlocks(job.data) then SendBlock(i + 1) else ArmReport
  }

  datatype Move = Move(pc: Pc, pending: Pending, sent: seq<Packet>)

  const GIVE_UP := Move(Returned(false), CLEARED, [])

  predicate AllBitsSet(bitmap: Payload, n: nat) {
    forall i: nat :: i < n ==> BitmapBitIsSet(bitmap, i)
  }

  function RequestPacket(me: Address, job: Job): Packet
    requires Admissible(job)
  {
    Packet(job.to, me, SetMsg(SetKind.Request, NumBlocks(job.data) - 1, false), FirstBytes(job.address))
  }

  function TransferPacket(me: Address, job: Job, i: nat): Packet
    requires Admissible(job) && i < NumBlocks(job.data)
  {
    Packet(job.to, me, SetMsg(SetKind.Transfer, i, false), Chunk(job.data, i))
  }

  function StatusPacket(me: Address, job: Job): Packet {
    Packet(job.to, me, SetMsg(SetKind.StatusRequest, 0, false), [])
  }

  function AbortPacket(me: Address, job: Job): Packet {
    Packet(job.to, me, SetMsg(SetKind.Abort, 0, false), [])
  }

  /** What leaving state pc does, given the pending record and whether the frame sender takes the frame. */
  function Advance(me: Address, job: Job, pc: Pc, p: Pending, sendOk: bool): (m: Move)
    requires WellPlaced(job, pc)
    ensures WellPlaced(job, m.pc)
  {
    match pc
    case Begin =>
      if Admissible(job)
      then Move(SendRequest, Claimed(job), [])
      else Move(Returned(false), p, [])
    case SendRequest =>
      if sendOk then Move(AwaitAck, p, [RequestPacket(me, job)]) else GIVE_UP
    case AwaitAck =>
      if p.requestAcked && !p.done then Move(SendBlock(0), p, []) else GIVE_UP
    case SendBlock(i) =>
      if sendOk
      then Move(AfterBlock(job, i), p, [TransferPacket(me, job, i)])
      else GIVE_UP
    case ArmReport =>
      Move(SendStatus, p.(waitingReport := true, reportReceived := false, done := false, ok := false), [])
    case SendStatus =>
      if sendOk then Move(AwaitReport, p, [StatusPacket(me, job)]) else GIVE_UP
    case AwaitReport =>
      if p.reportReceived && p.ok
      then Move(SendAbort(AllBitsSet(p.bitmap, NumBlocks(job.data)) && p.done), CLEARED, []) else GIVE_UP
    case SendAbort(success) =>
      Move(Returned(success), p, if sendOk then [AbortPacket(me, job)] else [])
    case Returned(_) =>
      Move(pc, p, [])
  }

  // ---------- Facts about single reactions ----------

  /** The reassembled payload is non-empty exactly when every block has arrived and none was handed over yet. */
  lemma AssembledNonEmpty(s: Session)
    ensures Assembled(s) != [] <==> AllBlocksReceived(Flags(s.blocks)) && !s.done
  {
    if AllBlocksReceived(Flags(s.blocks)) {
      assert Flags(s.blocks)[|s.blocks| - 1];
      FlattenNonEmpty(s.blocks);
    }
  }

  /** A report carries the whole bitmap: one flag per block, no padding bit set, nothing cut off. */
  lemma ReportBits(me: Address, to: Address, s: Session)
    ensures var r := ReportPacket(me, to, s);
            && |r.data| == r.msg.low6 == BitmapSizeBytes(s.numBlocks)
            && r.msg.done == s.done
            && forall i: nat :: BitmapBitIsSet(r.data, i) <==> i < s.numBlocks && s.blocks[i] != []
  {
    var flags := Flags(s.blocks);
    assert |Bitmap(flags)| <= 8;
    assert ReportPacket(me, to, s).data == Bitmap(flags);
    forall i: nat {
      BitmapRoundTrip(flags, i);
    }
  }

  function SessionOf(node: Node, peer: Address): Option<Session> {
    if peer in node.sessions then Some(node.sessions[peer]) else None
  }

  predicate IsRequestKind(k: SetKind) {
    k.Request? || k.Transfer? || k.StatusRequest? || k.Abort?
  }

  /** A frame touches only the session of its sender. */
  lemma ReactLeavesOthers(
      me: Address, node: Node, from: Address, msg: SetMsg, data: Payload, answer: Answer, other: Address)
    requires other != from
    ensures SessionOf(React(me, node, from, msg, data, answer).node, other) == SessionOf(node, other)
  {
  }

  /** What a frame causes is addressed to, or attributed to, its sender. Replies never ask for a reply. */
  lemma ReactAnswersSender(me: Address, node: Node, from: Address, msg: SetMsg, data: Payload, answer: Answer)
    ensures var r := React(me, node, from, msg, data, answer);
            && |r.replies| <= (if IsRequestKind(msg.kind) then 1 else 0)
            && (forall q :: q in r.replies ==> q.from == me && q.to == from && !IsRequestKind(q.msg.kind))
            && (forall d :: d in r.deliveries ==> d.from == from)
  {
  }
}
