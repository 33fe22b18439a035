/**
 * A read by one node from another over a bus that may lose, duplicate, delay and reorder frames, while
 * other nodes talk as they like. Both ends are the node reactions and the read sections of GetBlockSpec.
 */
module GetBlockNetwork {
  import opened CanTypes
  import opened Codec
  import opened Blocks
  import opened GetBlockSpec

  /** Node a reads from node b. */
  datatype Read = Read(a: Address, b: Address, job: Job)

  datatype Net = Net(pc: Pc, initiator: Node, responder: Node, flight: multiset<Packet>, served: seq<Service>)

  datatype Event =
    | Act(sendOk: bool)                                     // the reading thread runs its next section
    | AtInitiator(p: Packet, keep: bool, answer: Answer)    // a frame reaches a; keep leaves a duplicate in flight
    | AtResponder(p: Packet, keep: bool, answer: Answer)    // a frame reaches b
    | Drop(p: Packet)
    | Inject(p: Packet)                                     // any other traffic

  predicate Reaches(p: Packet, node: Address) {
    p.to == node || p.to == BROADCAST
  }

  /** Other nodes send anything under their own address; b may run reads of its own. */
  predicate Foreign(t: Read, p: Packet) {
    p.from != t.a && p.from != BROADCAST && (p.from == t.b ==> IsRequestKind(p.msg.kind))
  }

  predicate Enabled(t: Read, s: Net, e: Event) {
    match e
    case Act(_) => true
    case AtInitiator(p, _, _) => p in s.flight && Reaches(p, t.a)
    case AtResponder(p, _, _) => p in s.flight && Reaches(p, t.b)
    case Drop(p) => p in s.flight
    case Inject(p) => Foreign(t, p)
  }

  function Left(flight: multiset<Packet>, p: Packet, keep: bool): multiset<Packet> {
    if keep then flight else flight - multiset{p}
  }

  function Apply(t: Read, s: Net, e: Event): Net {
    match e
    case Act(sendOk) =>
      var m := Advance(t.a, t.job, s.pc, s.initiator.pending, sendOk);
      s.(pc := m.pc, initiator := s.initiator.(pending := m.pending), flight := s.flight + multiset(m.sent))
    case AtInitiator(p, keep, answer) =>
      var r := React(t.a, s.initiator, p.from, p.msg, p.data, answer);
      s.(initiator := r.node, flight := Left(s.flight, p, keep) + multiset(r.replies))
    case AtResponder(p, keep, answer) =>
      var r := React(t.b, s.responder, p.from, p.msg, p.data, answer);
      s.(responder := r.node, flight := Left(s.flight, p, keep) + multiset(r.replies), served := s.served + r.served)
    case Drop(p) => s.(flight := s.flight - multiset{p})
    case Inject(p) => s.(flight := s.flight + multiset{p})
  }

  ghost predicate IsRun(t: Read, states: seq<Net>, events: seq<Event>) {
    && |states| == |events| + 1
    && forall i :: 0 <= i < |events| ==>
        Enabled(t, states[i], events[i]) && states[i + 1] == Apply(t, states[i], events[i])
  }

  /** Frames that the two ends of the read act on for each other. */
  predicate Relevant(t: Read, p: Packet) {
    || (p.from == t.a && Reaches(p, t.b) && IsRequestKind(p.msg.kind))
    || (p.from == t.b && Reaches(p, t.a) && !IsRequestKind(p.msg.kind))
  }

  /**
   * A read is about to start. The responder may hold any old session, the initiator any old data, and
   * frames of the given kinds may still be in flight between the two nodes.
   */
  ghost predicate Initial(t: Read, s: Net, stale: set<GetKind>) {
    && t.a != t.b && t.a != BROADCAST && t.b != BROADCAST && t.job.to == t.b
    && s.pc == Begin && s.initiator.pending == CLEARED && s.served == []
    && (forall p :: p in s.flight ==> p.from != BROADCAST)
    && (forall p :: p in s.flight && Relevant(t, p) ==> p.msg.kind in stale)
  }

  /** b has stored responses for a from this set only. */
  ghost predicate OnlyServes(t: Read, served: seq<Service>, R: iset<seq<Byte>>) {
    forall d :: d in served && d.to == t.a ==> d.response in R
  }

  // ---------- Invariant, for the responses b serves to a ----------

  ghost predicate IsBlock(response: seq<Byte>, i: nat, data: Payload) {
    8 * i + 8 <= |response| && data == response[8 * i..8 * i + 8]
  }

  /** The data is block i of one of the responses. */
  ghost predicate Known(R: iset<seq<Byte>>, i: nat, data: Payload) {
    exists r :: r in R && IsBlock(r, i, data)
  }

  ghost predicate Clean(t: Read, responder: Node, R: iset<seq<Byte>>) {
    t.a in responder.sessions ==>
      forall i :: 0 <= i < responder.sessions[t.a].numBlocks ==> Known(R, i, responder.sessions[t.a].blocks[i])
  }

  ghost predicate GoodPacket(t: Read, p: Packet, clean: bool, R: iset<seq<Byte>>) {
    && p.from != BROADCAST
    && (p.from == t.a && Reaches(p, t.b) ==> (p.msg.kind.Start? ==> clean))
    && (p.from == t.b && Reaches(p, t.a) ==>
          && (p.msg.kind.Ack? ==> clean)
          && (p.msg.kind.Transfer? ==> Known(R, p.msg.low6, p.data)))
  }

  /** 64 blocks, each of which is that block of one of the responses. */
  ghost predicate Pieced(data: seq<Byte>, R: iset<seq<Byte>>) {
    |data| == 8 * READ_BLOCKS && forall i: nat :: i < READ_BLOCKS ==> Known(R, i, data[8 * i..8 * i + 8])
  }

  ghost predicate NodeInv(t: Read, node: Node, clean: bool, R: iset<seq<Byte>>) {
    var p := node.pending;
    && (p.waitingAck || p.acked || p.waitingTransfers ==> p.peer == t.b && p.numBlocks == READ_BLOCKS)
    && (p.acked ==> clean)
    && (p.waitingTransfers ==> forall i :: 0 <= i < READ_BLOCKS && p.received[i] ==> Known(R, i, p.blocks[i]))
    && (p.ok ==> Pieced(node.lastData, R))
  }

  ghost predicate Inv(t: Read, s: Net, R: iset<seq<Byte>>) {
    var clean := Clean(t, s.responder, R);
    && t.a != t.b && t.a != BROADCAST && t.b != BROADCAST && t.job.to == t.b
    && NodeInv(t, s.initiator, clean, R)
    && (s.pc.SendStart? || s.pc.AwaitTransfers? ==> clean)
    && (s.pc == Returned(true) ==> Pieced(s.initiator.lastData, R))
    && (s.pc.Returned? || s.pc.Begin? ==> !s.initiator.pending.waitingTransfers)
    && (forall p :: p in s.flight ==> GoodPacket(t, p, clean, R))
  }

  // ---------- The responder keeps its side ----------

  ghost predicate ResponderGood(t: Read, s: Net, r: Reaction, R: iset<seq<Byte>>) {
    var clean := Clean(t, r.node, R);
    && (Clean(t, s.responder, R) ==> clean)
    && (forall q :: q in r.replies ==> GoodPacket(t, q, clean, R))
  }

  /** A stored response makes the session hold its blocks. */
  lemma StoredIsClean(t: Read, low6: Low6, data: Payload, response: seq<Byte>, R: iset<seq<Byte>>)
    requires response in R && |response| == 8 * (low6 + 1)
    ensures var s := OpenSession(t.a, low6, data, response);
            forall i :: 0 <= i < s.numBlocks ==> Known(R, i, s.blocks[i])
  {
    var s := OpenSession(t.a, low6, data, response);
    forall i | 0 <= i < s.numBlocks
      ensures Known(R, i, s.blocks[i])
    {
      assert IsBlock(response, i, s.blocks[i]);
    }
  }

  lemma RequestKeeps(t: Read, s: Net, low6: Low6, data: Payload, answer: Answer, R: iset<seq<Byte>>)
    requires Inv(t, s, R)
    requires OnlyServes(t, OnRequest(t.b, s.responder, t.a, low6, data, answer).served, R)
    ensures ResponderGood(t, s, OnRequest(t.b, s.responder, t.a, low6, data, answer), R)
  {
    if Usable(low6, data, answer) {
      assert Service(t.a, answer.response) in OnRequest(t.b, s.responder, t.a, low6, data, answer).served;
      StoredIsClean(t, low6, data, answer.response, R);
    }
  }

  lemma StartKeeps(t: Read, s: Net, low6: Low6, data: Payload, R: iset<seq<Byte>>)
    requires Inv(t, s, R) && Clean(t, s.responder, R)
    ensures ResponderGood(t, s, OnStart(t.b, s.responder, t.a, low6, data), R)
  {
    if t.a in s.responder.sessions {
      var session := s.responder.sessions[t.a];
      SelectedExactly(t.b, t.a, session.blocks, data, session.numBlocks);
    }
  }

  lemma OthersKeep(t: Read, s: Net, p: Packet, answer: Answer, R: iset<seq<Byte>>)
    requires Inv(t, s, R) && p.from != t.a && p.from != BROADCAST
    ensures ResponderGood(t, s, React(t.b, s.responder, p.from, p.msg, p.data, answer), R)
  {
    var r := React(t.b, s.responder, p.from, p.msg, p.data, answer);
    ReactLeavesOthers(t.b, s.responder, p.from, p.msg, p.data, answer, t.a);
    ReactAnswersSender(t.b, s.responder, p.from, p.msg, p.data, answer);
    assert SessionOf(r.node, t.a) == SessionOf(s.responder, t.a);
  }

  lemma ResponderKeeps(t: Read, s: Net, p: Packet, answer: Answer, R: iset<seq<Byte>>)
    requires Inv(t, s, R) && p in s.flight && Reaches(p, t.b)
    requires OnlyServes(t, React(t.b, s.responder, p.from, p.msg, p.data, answer).served, R)
    ensures ResponderGood(t, s, React(t.b, s.responder, p.from, p.msg, p.data, answer), R)
  {
    assert GoodPacket(t, p, Clean(t, s.responder, R), R);
    if p.from != t.a {
      OthersKeep(t, s, p, answer, R);
    } else {
      match p.msg.kind {
        case Request => RequestKeeps(t, s, p.msg.low6, p.data, answer, R);
        case Start => StartKeeps(t, s, p.msg.low6, p.data, R);
        case _ =>
      }
    }
  }

  lemma ResponderStep(t: Read, s: Net, p: Packet, keep: bool, answer: Answer, R: iset<seq<Byte>>)
    requires Inv(t, s, R) && p in s.flight && Reaches(p, t.b)
    requires OnlyServes(t, React(t.b, s.responder, p.from, p.msg, p.data, answer).served, R)
    ensures Inv(t, Apply(t, s, AtResponder(p, keep, answer)), R)
  {
    ResponderKeeps(t, s, p, answer, R);
    var r := React(t.b, s.responder, p.from, p.msg, p.data, answer);
    var s' := Apply(t, s, AtResponder(p, keep, answer));
    forall q | q in s'.flight
      ensures GoodPacket(t, q, Clean(t, s'.responder, R), R)
    {
      if q !in r.replies {
        assert q in s.flight;
      }
    }
  }

  // ---------- The initiator keeps its side ----------

  /** When the last block has arrived, each of the joined blocks is known. */
  lemma AllReceived(R: iset<seq<Byte>>, blocks: seq<Payload>)
    requires |blocks| == READ_BLOCKS
    requires forall i :: 0 <= i < READ_BLOCKS ==> Known(R, i, blocks[i])
    ensures Pieced(Flatten(blocks), R)
  {
    forall i | 0 <= i < READ_BLOCKS
      ensures |blocks[i]| == 8
    {
      assert Known(R, i, blocks[i]);
      var r :| r in R && IsBlock(r, i, blocks[i]);
    }
    forall i: nat | i < READ_BLOCKS
      ensures |Flatten(blocks)| == 8 * READ_BLOCKS && Known(R, i, Flatten(blocks)[8 * i..8 * i + 8])
    {
      FlattenedSlice(blocks, i);
    }
    FlattenedSlice(blocks, 0);
  }

  lemma TransferKeeps(t: Read, node: Node, low6: Low6, data: Payload, clean: bool, R: iset<seq<Byte>>)
    requires NodeInv(t, node, clean, R) && Known(R, low6, data)
    ensures NodeInv(t, OnTransfer(node, t.b, low6, data), clean, R)
  {
    if TakesTransfer(node.pending, t.b, low6) {
      var stored := Stored(node.pending, low6, data);
      if AllBlocksReceived(stored.received) {
        forall i | 0 <= i < READ_BLOCKS
          ensures Known(R, i, stored.blocks[i])
        {
          assert stored.received[i];
        }
        AllReceived(R, stored.blocks);
      }
    }
  }

  lemma NodeKeeps(t: Read, node: Node, p: Packet, answer: Answer, clean: bool, R: iset<seq<Byte>>)
    requires NodeInv(t, node, clean, R)
    requires GoodPacket(t, p, clean, R) && Reaches(p, t.a)
    ensures NodeInv(t, React(t.a, node, p.from, p.msg, p.data, answer).node, clean, R)
  {
    if p.msg.kind.Transfer? && p.from == t.b {
      TransferKeeps(t, node, p.msg.low6, p.data, clean, R);
    }
  }

  /** Only a collecting record lets a frame change the data or start collecting. */
  lemma IdleKeepsData(t: Read, node: Node, p: Packet, answer: Answer)
    requires !node.pending.waitingTransfers
    ensures var n := React(t.a, node, p.from, p.msg, p.data, answer).node;
            n.lastData == node.lastData && !n.pending.waitingTransfers
  {
  }

  lemma InitiatorStep(t: Read, s: Net, p: Packet, keep: bool, answer: Answer, R: iset<seq<Byte>>)
    requires Inv(t, s, R) && p in s.flight && Reaches(p, t.a)
    ensures Inv(t, Apply(t, s, AtInitiator(p, keep, answer)), R)
  {
    var clean := Clean(t, s.responder, R);
    assert GoodPacket(t, p, clean, R);
    var r := React(t.a, s.initiator, p.from, p.msg, p.data, answer);
    NodeKeeps(t, s.initiator, p, answer, clean, R);
    if !s.initiator.pending.waitingTransfers {
      IdleKeepsData(t, s.initiator, p, answer);
    }
    ReactAnswersSender(t.a, s.initiator, p.from, p.msg, p.data, answer);
    var s' := Apply(t, s, AtInitiator(p, keep, answer));
    forall q | q in s'.flight
      ensures GoodPacket(t, q, clean, R)
    {
      if q !in r.replies {
        assert q in s.flight;
      }
    }
  }

  lemma ActStep(t: Read, s: Net, sendOk: bool, R: iset<seq<Byte>>)
    requires Inv(t, s, R)
    ensures Inv(t, Apply(t, s, Act(sendOk)), R)
  {
    var clean := Clean(t, s.responder, R);
    var m := Advance(t.a, t.job, s.pc, s.initiator.pending, sendOk);
    assert forall q :: q in m.sent ==> GoodPacket(t, q, clean, R);
    var s' := Apply(t, s, Act(sendOk));
    forall q | q in s'.flight
      ensures GoodPacket(t, q, clean, R)
    {
      if q !in m.sent {
        assert q in s.flight;
      }
    }
  }

  /** Every event keeps the invariant, as long as b serves a responses from R. */
  lemma StepKeeps(t: Read, s: Net, e: Event, R: iset<seq<Byte>>)
    requires Inv(t, s, R) && Enabled(t, s, e) && OnlyServes(t, Apply(t, s, e).served, R)
    ensures Inv(t, Apply(t, s, e), R)
  {
    match e
    case Act(sendOk) => ActStep(t, s, sendOk, R);
    case AtInitiator(p, keep, answer) => InitiatorStep(t, s, p, keep, answer, R);
    case AtResponder(p, keep, answer) =>
      var served := React(t.b, s.responder, p.from, p.msg, p.data, answer).served;
      assert forall d :: d in served ==> d in s.served + served;
      ResponderStep(t, s, p, keep, answer, R);
    case Drop(p) =>
    case Inject(p) =>
  }

  lemma {:induction false} ServedGrows(t: Read, states: seq<Net>, events: seq<Event>, i: nat, j: nat)
    requires IsRun(t, states, events) && i <= j < |states|
    ensures states[i].served <= states[j].served
  {
    if i < j {
      ServedGrows(t, states, events, i, j - 1);
    }
  }

  lemma {:induction false} RunKeeps(t: Read, states: seq<Net>, events: seq<Event>, R: iset<seq<Byte>>, i: nat)
    requires IsRun(t, states, events) && Inv(t, states[0], R) && i < |states|
    requires OnlyServes(t, states[i].served, R)
    ensures Inv(t, states[i], R)
  {
    if i > 0 {
      ServedGrows(t, states, events, i - 1, i);
      RunKeeps(t, states, events, R, i - 1);
      StepKeeps(t, states[i - 1], events[i - 1], R);
    }
  }

  // ---------- Main results ----------

  /** Frame kinds of an earlier transaction that can still be around without doing harm. */
  const HARMLESS: set<GetKind> := {GetKind.Request, GetKind.Abort, GetKind.Nack, GetKind.Reserved1, GetKind.Reserved5}

  /** The responses b has stored for a. */
  ghost function ServedFor(t: Read, served: seq<Service>): iset<seq<Byte>> {
    iset d | d in served && d.to == t.a :: d.response
  }

  /**
   * End-to-end safety for any application: whatever the bus loses, repeats, delays or reorders, a read that
   * returns true has left 512 bytes in lastData, and each of their blocks is that block of a response which
   * b stored for a in this transaction.
   */
  lemma ReadIsPieced(t: Read, states: seq<Net>, events: seq<Event>, i: nat)
    requires IsRun(t, states, events) && Initial(t, states[0], HARMLESS) && i < |states|
    ensures states[i].pc == Returned(true) ==> Pieced(states[i].initiator.lastData, ServedFor(t, states[i].served))
  {
    var R := ServedFor(t, states[i].served);
    ServedGrows(t, states, events, 0, i);
    assert Inv(t, states[0], R);
    RunKeeps(t, states, events, R, i);
  }

  /** b never stored two different responses for a. */
  ghost predicate OneResponse(t: Read, served: seq<Service>) {
    forall d, e :: d in served && e in served && d.to == t.a && e.to == t.a ==> d.response == e.response
  }

  lemma {:induction false} ServedIsShort(t: Read, states: seq<Net>, events: seq<Event>, i: nat, d: Service)
    requires IsRun(t, states, events) && states[0].served == [] && i < |states| && d in states[i].served
    ensures |d.response| <= MAX_BLOCK_BYTES
  {
    if i > 0 && d !in states[i - 1].served {
      assert events[i - 1].AtResponder?;
    } else if i > 0 {
      ServedIsShort(t, states, events, i - 1, d);
    }
  }

  /** Data pieced together from one response is that response. */
  lemma PiecedFromOne(data: seq<Byte>, R: iset<seq<Byte>>, response: seq<Byte>)
    requires Pieced(data, R) && (forall r :: r in R ==> r == response) && |response| <= 8 * READ_BLOCKS
    ensures response in R && data == response
  {
    forall i: nat | i < READ_BLOCKS
      ensures response in R && IsBlock(response, i, data[8 * i..8 * i + 8])
    {
      assert Known(R, i, data[8 * i..8 * i + 8]);
    }
    assert IsBlock(response, READ_BLOCKS - 1, data[8 * (READ_BLOCKS - 1)..8 * (READ_BLOCKS - 1) + 8]);
    SameSlices(data, response, READ_BLOCKS);
  }

  /** If b stored one response for a, a read that returns true has left exactly that one in lastData. */
  lemma ReadIsSafe(t: Read, states: seq<Net>, events: seq<Event>, i: nat)
    requires IsRun(t, states, events) && Initial(t, states[0], HARMLESS) && i < |states|
    requires OneResponse(t, states[i].served)
    ensures states[i].pc == Returned(true) ==>
              |states[i].initiator.lastData| == 512 && Service(t.a, states[i].initiator.lastData) in states[i].served
  {
    if states[i].pc == Returned(true) {
      var data, R := states[i].initiator.lastData, ServedFor(t, states[i].served);
      ReadIsPieced(t, states, events, i);
      assert Known(R, 0, data[8 * 0..8 * 0 + 8]);
      var d :| d in states[i].served && d.to == t.a;
      ServedIsShort(t, states, events, i, d);
      PiecedFromOne(data, R, d.response);
    }
  }

  // ---------- From a quiet channel: every request asks for 64 blocks ----------

  /** Requests of a are requests of this read, so what b stores for a has 512 bytes. */
  ghost predicate FullInv(t: Read, s: Net) {
    && t.a != t.b && t.job.to == t.b && t.a != BROADCAST
    && (forall p :: p in s.flight && p.from == t.a && Reaches(p, t.b) && p.msg.kind.Request? ==>
        p == RequestPacket(t.a, t.job))
    && (forall d :: d in s.served && d.to == t.a ==> |d.response| == 8 * READ_BLOCKS)
  }

  lemma RequestIsServedOnce(t: Read, b: Node, p: Packet, answer: Answer)
    ensures var served := React(t.b, b, p.from, p.msg, p.data, answer).served;
            && |served| <= 1
            && (served != [] ==>
                  p.msg.kind.Request? && served[0].to == p.from && |served[0].response| == 8 * (p.msg.low6 + 1))
  {
  }

  lemma FullAct(t: Read, s: Net, sendOk: bool)
    requires FullInv(t, s)
    ensures FullInv(t, Apply(t, s, Act(sendOk)))
  {
    var m := Advance(t.a, t.job, s.pc, s.initiator.pending, sendOk);
    assert forall q :: q in m.sent && q.msg.kind.Request? ==> q == RequestPacket(t.a, t.job);
    assert forall q :: q in Apply(t, s, Act(sendOk)).flight ==> q in s.flight || q in m.sent;
  }

  lemma FullAtResponder(t: Read, s: Net, p: Packet, keep: bool, answer: Answer)
    requires FullInv(t, s) && p in s.flight && Reaches(p, t.b)
    ensures FullInv(t, Apply(t, s, AtResponder(p, keep, answer)))
  {
    var r := React(t.b, s.responder, p.from, p.msg, p.data, answer);
    ReactAnswersSender(t.b, s.responder, p.from, p.msg, p.data, answer);
    RequestIsServedOnce(t, s.responder, p, answer);
    assert forall q :: q in Apply(t, s, AtResponder(p, keep, answer)).flight ==> q in s.flight || q in r.replies;
    assert forall d :: d in s.served + r.served ==> d in s.served || d == r.served[0];
  }

  lemma FullStep(t: Read, s: Net, e: Event)
    requires FullInv(t, s) && Enabled(t, s, e)
    ensures FullInv(t, Apply(t, s, e))
  {
    match e
    case Act(sendOk) => FullAct(t, s, sendOk);
    case AtInitiator(p, keep, answer) =>
      ReactAnswersSender(t.a, s.initiator, p.from, p.msg, p.data, answer);
    case AtResponder(p, keep, answer) => FullAtResponder(t, s, p, keep, answer);
    case Drop(p) =>
    case Inject(p) =>
  }

  lemma {:induction false} FullAlong(t: Read, states: seq<Net>, events: seq<Event>, i: nat)
    requires IsRun(t, states, events) && Initial(t, states[0], {}) && i < |states|
    ensures FullInv(t, states[i])
  {
    if i > 0 {
      FullAlong(t, states, events, i - 1);
      FullStep(t, states[i - 1], events[i - 1]);
    }
  }

  // ---------- When the bus does not repeat requests, one response is given ----------

  predicate KeepsRequest(t: Read, e: Event) {
    e.AtResponder? && e.keep && e.p.from == t.a && e.p.msg.kind.Request?
  }

  function ServedTo(served: seq<Service>, a: Address): nat {
    if served == [] then 0
    else ServedTo(served[..|served| - 1], a) + if served[|served| - 1].to == a then 1 else 0
  }

  /** The one request of this read is either still to be sent, or in flight, or lost, or served. */
  ghost predicate OnceInv(t: Read, s: Net) {
    s.flight[RequestPacket(t.a, t.job)] + ServedTo(s.served, t.a) <= (if s.pc.Begin? || s.pc.SendRequest? then 0 else 1)
  }

  lemma ServedToAppend(served: seq<Service>, more: seq<Service>, a: Address)
    requires |more| <= 1
    ensures ServedTo(served + more, a) == ServedTo(served, a) + if more != [] && more[0].to == a then 1 else 0
  {
    assert served + [] == served;
    if more != [] {
      assert (served + more)[..|served + more| - 1] == served;
    }
  }

  lemma NoRequestAmong(t: Read, sent: seq<Packet>)
    requires forall q :: q in sent ==> !q.msg.kind.Request?
    ensures multiset(sent)[RequestPacket(t.a, t.job)] == 0
  {
    assert RequestPacket(t.a, t.job) !in sent;
  }

  lemma OnceAct(t: Read, s: Net, sendOk: bool)
    requires OnceInv(t, s)
    ensures OnceInv(t, Apply(t, s, Act(sendOk)))
  {
    var m := Advance(t.a, t.job, s.pc, s.initiator.pending, sendOk);
    if !s.pc.SendRequest? {
      NoRequestAmong(t, m.sent);
    }
  }

  lemma OnceAtResponder(t: Read, s: Net, p: Packet, keep: bool, answer: Answer)
    requires FullInv(t, s) && OnceInv(t, s) && p in s.flight && Reaches(p, t.b)
        && !KeepsRequest(t, AtResponder(p, keep, answer))
    ensures OnceInv(t, Apply(t, s, AtResponder(p, keep, answer)))
  {
    var r := React(t.b, s.responder, p.from, p.msg, p.data, answer);
    ReactAnswersSender(t.b, s.responder, p.from, p.msg, p.data, answer);
    NoRequestAmong(t, r.replies);
    RequestIsServedOnce(t, s.responder, p, answer);
    ServedToAppend(s.served, r.served, t.a);
  }

  lemma OnceStep(t: Read, s: Net, e: Event)
    requires FullInv(t, s) && OnceInv(t, s) && Enabled(t, s, e) && !KeepsRequest(t, e)
    ensures OnceInv(t, Apply(t, s, e))
  {
    match e
    case Act(sendOk) => OnceAct(t, s, sendOk);
    case AtInitiator(p, keep, answer) =>
      ReactAnswersSender(t.a, s.initiator, p.from, p.msg, p.data, answer);
      NoRequestAmong(t, React(t.a, s.initiator, p.from, p.msg, p.data, answer).replies);
    case AtResponder(p, keep, answer) => OnceAtResponder(t, s, p, keep, answer);
    case Drop(p) =>
    case Inject(p) =>
  }

  lemma {:induction false} OnceAlong(t: Read, states: seq<Net>, events: seq<Event>, i: nat)
    requires IsRun(t, states, events) && Initial(t, states[0], {}) && i < |states|
    requires forall j :: 0 <= j < |events| ==> !KeepsRequest(t, events[j])
    ensures OnceInv(t, states[i])
  {
    if i > 0 {
      OnceAlong(t, states, events, i - 1);
      FullAlong(t, states, events, i - 1);
      OnceStep(t, states[i - 1], events[i - 1]);
    } else {
      assert Relevant(t, RequestPacket(t.a, t.job));
      assert RequestPacket(t.a, t.job) !in states[0].flight;
    }
  }

  lemma {:induction false} OneServiceMeansOneResponse(t: Read, served: seq<Service>)
    requires ServedTo(served, t.a) <= 1
    ensures OneResponse(t, served)
    ensures ServedTo(served, t.a) == 0 ==> forall d :: d in served ==> d.to != t.a
  {
    if served != [] {
      OneServiceMeansOneResponse(t, served[..|served| - 1]);
      assert forall d :: d in served ==> d in served[..|served| - 1] || d == served[|served| - 1];
    }
  }

  /** From a quiet channel, if the bus does not repeat the request, no assumption on the application is needed. */
  lemma UnrepeatedReadIsSafe(t: Read, states: seq<Net>, events: seq<Event>, i: nat)
    requires IsRun(t, states, events) && Initial(t, states[0], {}) && i < |states|
    requires forall j :: 0 <= j < |events| ==> !KeepsRequest(t, events[j])
    ensures states[i].pc == Returned(true) ==>
              |states[i].initiator.lastData| == 512 && Service(t.a, states[i].initiator.lastData) in states[i].served
  {
    OnceAlong(t, states, events, i);
    OneServiceMeansOneResponse(t, states[i].served);
    assert Initial(t, states[0], HARMLESS);
    ReadIsSafe(t, states, events, i);
  }
}
