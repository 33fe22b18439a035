/**
 * A write from one node to another over a bus that may lose, duplicate, delay and reorder frames, while
 * other nodes talk as they like. Both ends are the node reactions and the write sections of SetBlockSpec.
 */
module SetBlockNetwork {
  import opened CanTypes
  import opened Codec
  import opened Blocks
  import opened SetBlockSpec

  /** Node a writes job.data to node b. */
  datatype Write = Write(a: Address, b: Address, job: Job)

  datatype Net = Net(pc: Pc, initiator: Node, responder: Node, flight: multiset<Packet>, deliveries: seq<Delivery>)

  datatype Event =
    | Act(sendOk: bool)                                     // the writing thread runs its next section
    | AtInitiator(p: Packet, keep: bool, answer: Answer)    // a frame reaches a; keep leaves a duplicate in flight
    | AtResponder(p: Packet, keep: bool, answer: Answer)    // a frame reaches b
    | Drop(p: Packet)
    | Inject(p: Packet)                                     // any other traffic

  predicate Reaches(p: Packet, node: Address) {
    p.to == node || p.to == BROADCAST
  }

  /** Other nodes send anything under their own address; b may run writes of its own. */
  predicate Foreign(t: Write, p: Packet) {
    p.from != t.a && p.from != BROADCAST && (p.from == t.b ==> IsRequestKind(p.msg.kind))
  }

  predicate Enabled(t: Write, s: Net, e: Event) {
    match e
    case Act(_) => WellPlaced(t.job, s.pc)
    case AtInitiator(p, _, _) => p in s.flight && Reaches(p, t.a)
    case AtResponder(p, _, _) => p in s.flight && Reaches(p, t.b)
    case Drop(p) => p in s.flight
    case Inject(p) => Foreign(t, p)
  }

  function Taken(flight: multiset<Packet>, p: Packet, keep: bool): multiset<Packet> {
    if keep then flight else flight - multiset{p}
  }

  function Apply(t: Write, s: Net, e: Event): Net
    requires Enabled(t, s, e)
  {
    match e
    case Act(sendOk) =>
      var m := Advance(t.a, t.job, s.pc, s.initiator.pending, sendOk);
      s.(pc := m.pc, initiator := s.initiator.(pending := m.pending), flight := s.flight + multiset(m.sent))
    case AtInitiator(p, keep, answer) =>
      var r := React(t.a, s.initiator, p.from, p.msg, p.data, answer);
      s.(initiator := r.node, flight := Taken(s.flight, p, keep) + multiset(r.replies))
    case AtResponder(p, keep, answer) =>
      var r := React(t.b, s.responder, p.from, p.msg, p.data, answer);
      s.(responder := r.node, flight := Taken(s.flight, p, keep) + multiset(r.replies),
         deliveries := s.deliveries + r.deliveries)
    case Drop(p) => s.(flight := s.flight - multiset{p})
    case Inject(p) => s.(flight := s.flight + multiset{p})
  }

  ghost predicate IsRun(t: Write, states: seq<Net>, events: seq<Event>) {
    && |states| == |events| + 1
    && forall i :: 0 <= i < |events| ==>
        Enabled(t, states[i], events[i]) && states[i + 1] == Apply(t, states[i], events[i])
  }

  /** Frames that the two ends of the write act on for each other. */
  predicate Relevant(t: Write, p: Packet) {
    || (p.from == t.a && Reaches(p, t.b) && IsRequestKind(p.msg.kind))
    || (p.from == t.b && Reaches(p, t.a) && !IsRequestKind(p.msg.kind))
  }

  /** What tells left-over frames apart: the kind and the done flag. */
  datatype Mark = Mark(kind: SetKind, done: bool)

  function MarkOf(p: Packet): Mark {
    Mark(p.msg.kind, p.msg.done)
  }

  /**
   * A write is about to start. The responder may hold any old session, and frames with the given marks may
   * still be in flight between the two nodes.
   */
  ghost predicate Initial(t: Write, s: Net, stale: set<Mark>) {
    && t.a != t.b && t.a != BROADCAST && t.b != BROADCAST && t.job.to == t.b
    && s.pc == Begin && s.initiator.pending == CLEARED && s.deliveries == []
    && (forall p :: p in s.flight ==> p.from != BROADCAST)
    && (forall p :: p in s.flight && Relevant(t, p) ==> MarkOf(p) in stale)
  }

  /** The application at b took exactly the written data, filled up with zeros to whole blocks. */
  predicate Accepted(t: Write, deliveries: seq<Delivery>) {
    Delivery(t.a, Padded(t.job.data), true) in deliveries
  }

  // ---------- Invariant ----------

  /** The block counts that requests in flight may announce. */
  datatype Sizes = Any | Only(n: nat) {
    predicate Has(k: nat) {
      Any? || k == n
    }
  }

  /**
   * b's session for a belongs to this write: it only holds blocks of it, and sizes lists the block counts it may
   * have.
   */
  ghost predicate Fresh(t: Write, s: Session, deliveries: seq<Delivery>, sizes: Sizes) {
    && sizes.Has(s.numBlocks)
    && (forall i :: 0 <= i < s.numBlocks && s.blocks[i] != [] ==>
        i < NumBlocks(t.job.data) && s.blocks[i] == Chunk(t.job.data, i))
    && (s.done ==> AllBlocksReceived(Flags(s.blocks)) && Delivery(t.a, Flatten(s.blocks), true) in deliveries)
  }

  ghost predicate Clean(t: Write, responder: Node, deliveries: seq<Delivery>, sizes: Sizes) {
    t.a in responder.sessions ==> Fresh(t, responder.sessions[t.a], deliveries, sizes)
  }

  ghost predicate GoodReport(t: Write, bitmap: Payload, done: bool, deliveries: seq<Delivery>) {
    done && AllBitsSet(bitmap, NumBlocks(t.job.data)) ==> Accepted(t, deliveries)
  }

  ghost predicate GoodPacket(t: Write, p: Packet, clean: bool, deliveries: seq<Delivery>, sizes: Sizes) {
    && p.from != BROADCAST
    && (p.from == t.a && Reaches(p, t.b) ==>
          && (p.msg.kind.Request? ==> sizes.Has(p.msg.low6 + 1))
          && (p.msg.kind.Transfer? ==>
              clean && p.msg.low6 < NumBlocks(t.job.data) && p.data == Chunk(t.job.data, p.msg.low6))
          && (p.msg.kind.StatusRequest? ==> clean))
    && (p.from == t.b && Reaches(p, t.a) ==>
          && (p.msg.kind.Ack? ==> clean)
          && (p.msg.kind.Report? ==> GoodReport(t, p.data, p.msg.done, deliveries)))
  }

  ghost predicate GoodDelivery(t: Write, d: Delivery, sizes: Sizes) {
    d.from == t.a ==>
      exists m: nat | sizes.Has(m) && m <= NumBlocks(t.job.data) :: d.payload == Flatten(Chunks(t.job.data)[..m])
  }

  ghost predicate PcInv(t: Write, s: Net, clean: bool) {
    && WellPlaced(t.job, s.pc)
    && (s.pc.SendBlock? || s.pc.ArmReport? || s.pc.SendStatus? || s.pc.AwaitReport? ==> clean)
    && (s.pc == SendAbort(true) || s.pc == Returned(true) ==> Accepted(t, s.deliveries))
  }

  ghost predicate PendingInv(t: Write, p: Pending, clean: bool, deliveries: seq<Delivery>) {
    && (p.active ==> p.peer == t.b)
    && (p.requestAcked ==> clean)
    && (p.ok ==> GoodReport(t, p.bitmap, p.done, deliveries))
  }

  ghost predicate Inv(t: Write, s: Net, sizes: Sizes) {
    var clean := Clean(t, s.responder, s.deliveries, sizes);
    && t.a != t.b && t.a != BROADCAST && t.b != BROADCAST && t.job.to == t.b
    && (Admissible(t.job) ==> sizes.Has(NumBlocks(t.job.data)))
    && PcInv(t, s, clean)
    && PendingInv(t, s.initiator.pending, clean, s.deliveries)
    && (forall p :: p in s.flight ==> GoodPacket(t, p, clean, s.deliveries, sizes))
    && (forall d :: d in s.deliveries ==> GoodDelivery(t, d, sizes))
  }

  // ---------- The responder keeps its side ----------

  /** A complete session of this write holds exactly its first blocks. */
  lemma CompleteBlocks(t: Write, s: Session, deliveries: seq<Delivery>, sizes: Sizes)
    requires Fresh(t, s, deliveries, sizes) && AllBlocksReceived(Flags(s.blocks))
    ensures s.numBlocks <= NumBlocks(t.job.data)
    ensures s.blocks == Chunks(t.job.data)[..s.numBlocks]
  {
    assert forall i :: 0 <= i < s.numBlocks ==> Flags(s.blocks)[i];
    assert s.blocks[s.numBlocks - 1] != [];
  }

  /** What a session of this write reports is true of it. */
  lemma FreshReport(t: Write, s: Session, deliveries: seq<Delivery>, sizes: Sizes)
    requires Fresh(t, s, deliveries, sizes)
    ensures var r := ReportPacket(t.b, t.a, s); GoodReport(t, r.data, r.msg.done, deliveries)
  {
    var r := ReportPacket(t.b, t.a, s);
    var n := NumBlocks(t.job.data);
    ReportBits(t.b, t.a, s);
    if r.msg.done && AllBitsSet(r.data, n) {
      CompleteBlocks(t, s, deliveries, sizes);
      assert n > 0 ==> BitmapBitIsSet(r.data, n - 1);
      assert s.blocks == Chunks(t.job.data);
      ChunksRoundTrip(t.job.data);
    }
  }

  /** Settling a session of this write keeps it one, and hands over only its blocks. */
  lemma FreshSettle(t: Write, s: Session, deliveries: seq<Delivery>, sizes: Sizes, answer: Answer)
    requires Fresh(t, s, deliveries, sizes) && s.accepted
    ensures var more := if Assembled(s) != [] then [Delivery(t.a, Assembled(s), Accepts(answer))] else [];
            && Fresh(t, Settle(s, answer), deliveries + more, sizes)
            && forall d :: d in more ==> GoodDelivery(t, d, sizes)
  {
    AssembledNonEmpty(s);
    if Assembled(s) != [] {
      CompleteBlocks(t, s, deliveries, sizes);
      assert Assembled(s) == Flatten(Chunks(t.job.data)[..s.numBlocks]);
    }
  }

  lemma MoreDeliveries(
      t: Write, p: Packet, clean: bool, clean': bool, deliveries: seq<Delivery>, more: seq<Delivery>,
      sizes: Sizes)
    requires GoodPacket(t, p, clean, deliveries, sizes) && (clean ==> clean')
    ensures GoodPacket(t, p, clean', deliveries + more, sizes)
  {
  }

  /** What a reaction of the responder must not break. */
  ghost predicate ResponderGood(t: Write, s: Net, r: Reaction, sizes: Sizes) {
    var deliveries := s.deliveries + r.deliveries;
    var clean := Clean(t, r.node, deliveries, sizes);
    && (Clean(t, s.responder, s.deliveries, sizes) ==> clean)
    && (forall q :: q in r.replies ==> GoodPacket(t, q, clean, deliveries, sizes))
    && (forall d :: d in r.deliveries ==> GoodDelivery(t, d, sizes))
  }

  lemma RequestKeeps(t: Write, s: Net, low6: Low6, data: Payload, sizes: Sizes)
    requires Inv(t, s, sizes) && sizes.Has(low6 + 1)
    ensures ResponderGood(t, s, OnRequest(t.b, s.responder, t.a, low6, data), sizes)
  {
    assert Fresh(t, OpenSession(t.a, low6, data), s.deliveries + [], sizes);
  }

  lemma TransferKeeps(t: Write, s: Net, low6: Low6, sizes: Sizes)
    requires Inv(t, s, sizes) && Clean(t, s.responder, s.deliveries, sizes) && low6 < NumBlocks(t.job.data)
    ensures ResponderGood(t, s, OnTransfer(t.b, s.responder, t.a, low6, Chunk(t.job.data, low6)), sizes)
  {
    var node, chunk := s.responder, Chunk(t.job.data, low6);
    assert s.deliveries + [] == s.deliveries;
    if Stores(node, t.a, low6) {
      var held := node.sessions[t.a];
      var stored := Store(held, low6, chunk);
      if held.done {
        CompleteBlocks(t, held, s.deliveries, sizes);
        assert stored.blocks == held.blocks;
      }
      assert Fresh(t, stored, s.deliveries, sizes);
    }
  }

  lemma StatusKeeps(t: Write, s: Net, low6: Low6, data: Payload, answer: Answer, sizes: Sizes)
    requires Inv(t, s, sizes) && Clean(t, s.responder, s.deliveries, sizes)
    ensures ResponderGood(t, s, OnStatusRequest(t.b, s.responder, t.a, low6, data, answer), sizes)
  {
    assert s.deliveries + [] == s.deliveries;
    if t.a in s.responder.sessions && s.responder.sessions[t.a].accepted {
      var session := s.responder.sessions[t.a];
      FreshSettle(t, session, s.deliveries, sizes, answer);
      var more := if Assembled(session) != [] then [Delivery(t.a, Assembled(session), Accepts(answer))] else [];
      FreshReport(t, Settle(session, answer), s.deliveries + more, sizes);
    }
  }

  lemma OthersKeep(t: Write, s: Net, p: Packet, answer: Answer, sizes: Sizes)
    requires Inv(t, s, sizes) && p.from != t.a && p.from != BROADCAST
    ensures ResponderGood(t, s, React(t.b, s.responder, p.from, p.msg, p.data, answer), sizes)
  {
    var r := React(t.b, s.responder, p.from, p.msg, p.data, answer);
    ReactLeavesOthers(t.b, s.responder, p.from, p.msg, p.data, answer, t.a);
    ReactAnswersSender(t.b, s.responder, p.from, p.msg, p.data, answer);
    assert SessionOf(r.node, t.a) == SessionOf(s.responder, t.a);
  }

  lemma ResponderKeeps(t: Write, s: Net, p: Packet, answer: Answer, sizes: Sizes)
    requires Inv(t, s, sizes) && p in s.flight && Reaches(p, t.b)
    ensures ResponderGood(t, s, React(t.b, s.responder, p.from, p.msg, p.data, answer), sizes)
  {
    assert GoodPacket(t, p, Clean(t, s.responder, s.deliveries, sizes), s.deliveries, sizes);
    if p.from != t.a {
      OthersKeep(t, s, p, answer, sizes);
    } else {
      match p.msg.kind {
        case Request => RequestKeeps(t, s, p.msg.low6, p.data, sizes);
        case Transfer => TransferKeeps(t, s, p.msg.low6, sizes);
        case StatusRequest => StatusKeeps(t, s, p.msg.low6, p.data, answer, sizes);
        case Abort =>
        case _ =>
          assert s.deliveries + [] == s.deliveries;
      }
    }
  }

  lemma ResponderStep(t: Write, s: Net, p: Packet, keep: bool, answer: Answer, sizes: Sizes)
    requires Inv(t, s, sizes) && p in s.flight && Reaches(p, t.b)
    ensures Inv(t, Apply(t, s, AtResponder(p, keep, answer)), sizes)
  {
    ResponderKeeps(t, s, p, answer, sizes);
    var r := React(t.b, s.responder, p.from, p.msg, p.data, answer);
    var s' := Apply(t, s, AtResponder(p, keep, answer));
    var clean := Clean(t, s.responder, s.deliveries, sizes);
    var clean' := Clean(t, s'.responder, s'.deliveries, sizes);
    forall q | q in s'.flight
      ensures GoodPacket(t, q, clean', s'.deliveries, sizes)
    {
      if q !in r.replies {
        assert q in s.flight;
        MoreDeliveries(t, q, clean, clean', s.deliveries, r.deliveries, sizes);
      }
    }
  }

  // ---------- The initiator keeps its side ----------

  lemma NoteKeeps(t: Write, p: Packet, pending: Pending, clean: bool, deliveries: seq<Delivery>, sizes: Sizes)
    requires PendingInv(t, pending, clean, deliveries) && GoodPacket(t, p, clean, deliveries, sizes) && Reaches(p, t.a)
    ensures PendingInv(t, Note(pending, p.from, p.msg, p.data), clean, deliveries)
  {
  }

  lemma InitiatorReacts(t: Write, s: Net, p: Packet, answer: Answer, sizes: Sizes)
    requires Inv(t, s, sizes) && p in s.flight && Reaches(p, t.a)
    ensures Inv(t, s.(initiator := React(t.a, s.initiator, p.from, p.msg, p.data, answer).node), sizes)
  {
    var clean := Clean(t, s.responder, s.deliveries, sizes);
    assert GoodPacket(t, p, clean, s.deliveries, sizes);
    NoteKeeps(t, p, s.initiator.pending, clean, s.deliveries, sizes);
  }

  lemma InitiatorReplies(t: Write, s: Net, p: Packet, answer: Answer, sizes: Sizes)
    requires Inv(t, s, sizes) && p in s.flight
    ensures forall q :: q in React(t.a, s.initiator, p.from, p.msg, p.data, answer).replies ==>
              GoodPacket(t, q, Clean(t, s.responder, s.deliveries, sizes), s.deliveries, sizes)
  {
    ReactAnswersSender(t.a, s.initiator, p.from, p.msg, p.data, answer);
  }

  lemma InitiatorStep(t: Write, s: Net, p: Packet, keep: bool, answer: Answer, sizes: Sizes)
    requires Inv(t, s, sizes) && p in s.flight && Reaches(p, t.a)
    ensures Inv(t, Apply(t, s, AtInitiator(p, keep, answer)), sizes)
  {
    var r := React(t.a, s.initiator, p.from, p.msg, p.data, answer);
    InitiatorReacts(t, s, p, answer, sizes);
    InitiatorReplies(t, s, p, answer, sizes);
    MoreFlight(t, s.(initiator := r.node), Taken(s.flight, p, keep), r.replies, sizes);
  }

  lemma MoreFlight(t: Write, s: Net, flight: multiset<Packet>, sent: seq<Packet>, sizes: Sizes)
    requires Inv(t, s, sizes) && flight <= s.flight
    requires forall q :: q in sent ==> GoodPacket(t, q, Clean(t, s.responder, s.deliveries, sizes), s.deliveries, sizes)
    ensures Inv(t, s.(flight := flight + multiset(sent)), sizes)
  {
    forall q | q in flight + multiset(sent)
      ensures GoodPacket(t, q, Clean(t, s.responder, s.deliveries, sizes), s.deliveries, sizes)
    {
      if q !in sent {
        assert q in s.flight;
      }
    }
  }

  lemma AdvanceKeepsPc(t: Write, s: Net, sendOk: bool, clean: bool)
    requires t.job.to == t.b && PcInv(t, s, clean) && PendingInv(t, s.initiator.pending, clean, s.deliveries)
    ensures var m := Advance(t.a, t.job, s.pc, s.initiator.pending, sendOk);
            PcInv(t, s.(pc := m.pc), clean) && PendingInv(t, m.pending, clean, s.deliveries)
  {
  }

  lemma AdvanceSendsGood(t: Write, s: Net, sendOk: bool, sizes: Sizes)
    requires Inv(t, s, sizes)
    ensures forall q :: q in Advance(t.a, t.job, s.pc, s.initiator.pending, sendOk).sent ==>
              GoodPacket(t, q, Clean(t, s.responder, s.deliveries, sizes), s.deliveries, sizes)
  {
  }

  lemma ActStep(t: Write, s: Net, sendOk: bool, sizes: Sizes)
    requires Inv(t, s, sizes)
    ensures Inv(t, Apply(t, s, Act(sendOk)), sizes)
  {
    var m := Advance(t.a, t.job, s.pc, s.initiator.pending, sendOk);
    AdvanceKeepsPc(t, s, sendOk, Clean(t, s.responder, s.deliveries, sizes));
    AdvanceSendsGood(t, s, sendOk, sizes);
    var moved := s.(pc := m.pc, initiator := s.initiator.(pending := m.pending));
    assert Inv(t, moved, sizes);
    MoreFlight(t, moved, s.flight, m.sent, sizes);
  }

  /** Every event keeps the invariant. */
  lemma StepKeeps(t: Write, s: Net, e: Event, sizes: Sizes)
    requires Inv(t, s, sizes) && Enabled(t, s, e)
    ensures Inv(t, Apply(t, s, e), sizes)
  {
    match e
    case Act(sendOk) => ActStep(t, s, sendOk, sizes);
    case AtInitiator(p, keep, answer) => InitiatorStep(t, s, p, keep, answer, sizes);
    case AtResponder(p, keep, answer) => ResponderStep(t, s, p, keep, answer, sizes);
    case Drop(p) =>
    case Inject(p) =>
  }

  lemma {:induction false} RunKeeps(t: Write, states: seq<Net>, events: seq<Event>, sizes: Sizes, i: nat)
    requires IsRun(t, states, events) && Inv(t, states[0], sizes) && i < |states|
    ensures Inv(t, states[i], sizes)
  {
    if i > 0 {
      RunKeeps(t, states, events, sizes, i - 1);
      StepKeeps(t, states[i - 1], events[i - 1], sizes);
    }
  }

  // ---------- Main results ----------

  /**
   * Frames of an earlier transaction that can still be around without doing harm; a report without the done flag
   * is one.
   */
  predicate Harmless(m: Mark) {
    m.kind.Request? || m.kind.Abort? || m.kind.Nack? || m.kind.Reserved? || (m.kind.Report? && !m.done)
  }

  ghost predicate AllHarmless(stale: set<Mark>) {
    forall m :: m in stale ==> Harmless(m)
  }

  lemma InitialInv(t: Write, s: Net, stale: set<Mark>)
    requires Initial(t, s, stale) && AllHarmless(stale)
    ensures Inv(t, s, Any)
  {
    forall p | p in s.flight
      ensures GoodPacket(t, p, Clean(t, s.responder, s.deliveries, Any), s.deliveries, Any)
    {
      if Relevant(t, p) {
        assert Harmless(MarkOf(p));
      }
    }
  }

  lemma QuietInv(t: Write, s: Net)
    requires Initial(t, s, {})
    ensures Inv(t, s, Only(NumBlocks(t.job.data)))
  {
  }

  /**
   * End-to-end safety: whatever the bus loses, repeats, delays or reorders, a write that returns true
   * has put exactly the written data, filled up with zeros, into the application at the other end.
   */
  lemma WriteIsSafe(t: Write, states: seq<Net>, events: seq<Event>, stale: set<Mark>, i: nat)
    requires IsRun(t, states, events) && Initial(t, states[0], stale) && AllHarmless(stale) && i < |states|
    ensures states[i].pc == Returned(true) ==> Accepted(t, states[i].deliveries)
  {
    InitialInv(t, states[0], stale);
    RunKeeps(t, states, events, Any, i);
  }

  lemma GoodDeliveryIsPadded(t: Write, d: Delivery)
    requires GoodDelivery(t, d, Only(NumBlocks(t.job.data))) && d.from == t.a
    ensures d.payload == Padded(t.job.data)
  {
    assert Chunks(t.job.data)[..NumBlocks(t.job.data)] == Chunks(t.job.data);
    ChunksRoundTrip(t.job.data);
  }

  /** From a quiet channel the application never even sees anything else from the writer. */
  lemma QuietWriteDelivers(t: Write, states: seq<Net>, events: seq<Event>, i: nat)
    requires IsRun(t, states, events) && Initial(t, states[0], {}) && i < |states|
    ensures forall d :: d in states[i].deliveries && d.from == t.a ==> d.payload == Padded(t.job.data)
  {
    QuietInv(t, states[0]);
    RunKeeps(t, states, events, Only(NumBlocks(t.job.data)), i);
    forall d | d in states[i].deliveries && d.from == t.a
      ensures d.payload == Padded(t.job.data)
    {
      GoodDeliveryIsPadded(t, d);
    }
  }
}
