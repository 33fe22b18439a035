/**
 * The SETBLOCK responder as a function of the frames it has received: peers are independent, blocks and deliveries
 * follow from the history.
 */
module SetBlockHistory {
  import opened CanTypes
  import opened Codec
  import opened Blocks
  import opened SetBlockSpec
  import opened SetBlockRun
  import opened Sequences

  /** All that a history of inbound frames does, frame by frame. */
  function Play(me: Address, start: Node, h: seq<Inbound>): Reaction {
    if h == [] then Reaction(start, [], [])
    else
      var before := Play(me, start, h[..|h| - 1]);
      var r := ReactTo(me, before.node, h[|h| - 1]);
      Reaction(r.node, before.replies + r.replies, before.deliveries + r.deliveries)
  }

  lemma PlayOne(me: Address, start: Node, h: seq<Inbound>, m: Inbound)
    ensures Play(me, start, h + [m]).node == ReactTo(me, Play(me, start, h).node, m).node
  {
    assert (h + [m])[..|h + [m]| - 1] == h;
  }

  // ---------- Peers do not interfere ----------

  function OnlyFrom(h: seq<Inbound>, p: Address): seq<Inbound> {
    Filter(h, (m: Inbound) => m.from == p)
  }

  function RepliesTo(replies: seq<Packet>, p: Address): seq<Packet> {
    Filter(replies, (q: Packet) => q.to == p)
  }

  function DeliveriesFrom(ds: seq<Delivery>, p: Address): seq<Delivery> {
    Filter(ds, (d: Delivery) => d.from == p)
  }

  /** What one more frame adds for a peer: everything if it is the sender, nothing otherwise. */
  lemma FilterReaction(replies: seq<Packet>, ds: seq<Delivery>, r: Reaction, from: Address, p: Address)
    requires forall q :: q in r.replies ==> q.to == from
    requires forall d :: d in r.deliveries ==> d.from == from
    ensures RepliesTo(replies + r.replies, p) == RepliesTo(replies, p) + if from == p then r.replies else []
    ensures DeliveriesFrom(ds + r.deliveries, p) == DeliveriesFrom(ds, p) + if from == p then r.deliveries else []
  {
    FilterAppend(replies, r.replies, (q: Packet) => q.to == p);
    FilterAlike(r.replies, (q: Packet) => q.to == p, from == p);
    FilterAppend(ds, r.deliveries, (d: Delivery) => d.from == p);
    FilterAlike(r.deliveries, (d: Delivery) => d.from == p, from == p);
  }

  /** A frame's effect on its sender depends on nothing but the sender's own session. */
  lemma OwnSessionDecides(me: Address, n1: Node, n2: Node, m: Inbound)
    requires SessionOf(n1, m.from) == SessionOf(n2, m.from)
    ensures var r1, r2 := ReactTo(me, n1, m), ReactTo(me, n2, m);
            && SessionOf(r1.node, m.from) == SessionOf(r2.node, m.from)
            && r1.replies == r2.replies && r1.deliveries == r2.deliveries
  {
  }

  /** For every peer, the run looks as if the other peers had been silent. */
  lemma {:induction false} PeersDoNotInterfere(me: Address, start: Node, h: seq<Inbound>, p: Address)
    ensures var all, own := Play(me, start, h), Play(me, start, OnlyFrom(h, p));
            && SessionOf(all.node, p) == SessionOf(own.node, p)
            && RepliesTo(all.replies, p) == RepliesTo(own.replies, p)
            && DeliveriesFrom(all.deliveries, p) == DeliveriesFrom(own.deliveries, p)
  {
    if h != [] {
      var prefix, m := h[..|h| - 1], h[|h| - 1];
      PeersDoNotInterfere(me, start, prefix, p);
      var all, own := Play(me, start, prefix), Play(me, start, OnlyFrom(prefix, p));
      var r := ReactTo(me, all.node, m);
      ReactAnswersSender(me, all.node, m.from, m.msg, m.data, m.answer);
      FilterReaction(all.replies, all.deliveries, r, m.from, p);
      if m.from == p {
        OwnSessionDecides(me, all.node, own.node, m);
        FilterReaction(own.replies, own.deliveries, ReactTo(me, own.node, m), m.from, p);
        assert OnlyFrom(h, p)[..|OnlyFrom(h, p)| - 1] == OnlyFrom(prefix, p);
      } else {
        ReactLeavesOthers(me, all.node, m.from, m.msg, m.data, m.answer, p);
      }
    }
  }

  // ---------- What the history says ----------

  /** The request a peer's session stems from: its last one, unless it aborted since. */
  function Opening(h: seq<Inbound>, p: Address): Option<Inbound> {
    if h == [] then None
    else
      var m := h[|h| - 1];
      if m.from == p && m.msg.kind.Request? then Some(m)
      else if m.from == p && m.msg.kind.Abort? then None
      else Opening(h[..|h| - 1], p)
  }

  /** The payload of the peer's last transfer number i since that request; empty if there was none. */
  function BlockAt(h: seq<Inbound>, p: Address, i: nat): Payload {
    if h == [] then []
    else
      var m := h[|h| - 1];
      if m.from == p && (m.msg.kind.Request? || m.msg.kind.Abort?) then []
      else if m.from == p && m.msg.kind.Transfer? && m.msg.low6 == i then m.data
      else BlockAt(h[..|h| - 1], p, i)
  }

  /** A session that takes blocks: opened by a request that names an address. */
  predicate Taking(h: seq<Inbound>, p: Address) {
    Opening(h, p).Some? && Opening(h, p).value.data != []
  }

  function BlocksOf(h: seq<Inbound>, p: Address): seq<Payload>
    requires Taking(h, p)
  {
    seq(Opening(h, p).value.msg.low6 + 1, i requires 0 <= i => BlockAt(h, p, i))
  }

  predicate Complete(h: seq<Inbound>, p: Address) {
    Taking(h, p) && forall i :: 0 <= i < |BlocksOf(h, p)| ==> BlocksOf(h, p)[i] != []
  }

  /** Since that request, a status request found every block and the application took the payload. */
  function Taken(h: seq<Inbound>, p: Address): bool {
    if h == [] then false
    else
      var prefix, m := h[..|h| - 1], h[|h| - 1];
      if m.from != p then Taken(prefix, p)
      else match m.msg.kind
        case Request => false
        case Abort => false
        case StatusRequest => Taken(prefix, p) || (Complete(prefix, p) && m.answer != Answered(false))
        case _ => Taken(prefix, p)
  }

  /** Which payloads reach the application, and when. */
  function Deliveries(h: seq<Inbound>): seq<Delivery> {
    if h == [] then []
    else
      var prefix, m := h[..|h| - 1], h[|h| - 1];
      Deliveries(prefix)
      + if m.msg.kind.StatusRequest? && Complete(prefix, m.from) && !Taken(prefix, m.from)
        then [Delivery(m.from, Flatten(BlocksOf(prefix, m.from)), m.answer != Answered(false))] else []
  }

  const FRESH_NODE := Node(map[], CLEARED)

  /** The session the history accounts for. */
  ghost predicate Explains(h: seq<Inbound>, p: Address, session: Option<Session>) {
    match Opening(h, p)
    case None => session.None?
    case Some(m) =>
      && session.Some?
      && session.value.peer == p
      && session.value.address == m.data
      && session.value.numBlocks == m.msg.low6 + 1
      && session.value.accepted == Taking(h, p)
      && (Taking(h, p) ==> session.value.blocks == BlocksOf(h, p) && session.value.done == Taken(h, p))
  }

  lemma RequestExplained(me: Address, h: seq<Inbound>, node: Node, m: Inbound)
    requires m.msg.kind.Request?
    ensures Explains(h + [m], m.from, SessionOf(ReactTo(me, node, m).node, m.from))
  {
    assert (h + [m])[..|h + [m]| - 1] == h;
  }

  lemma TransferExplained(me: Address, h: seq<Inbound>, node: Node, m: Inbound)
    requires Explains(h, m.from, SessionOf(node, m.from)) && m.msg.kind.Transfer?
    ensures Explains(h + [m], m.from, SessionOf(ReactTo(me, node, m).node, m.from))
  {
    assert (h + [m])[..|h + [m]| - 1] == h;
    if Taking(h, m.from) {
      assert forall i: nat :: BlockAt(h + [m], m.from, i) == if i == m.msg.low6 then m.data else BlockAt(h, m.from, i);
    }
  }

  lemma CompleteIsAllReceived(h: seq<Inbound>, p: Address, blocks: seq<Payload>)
    requires Taking(h, p) && blocks == BlocksOf(h, p)
    ensures Complete(h, p) <==> AllBlocksReceived(Flags(blocks))
  {
    if AllBlocksReceived(Flags(blocks)) {
      forall i | 0 <= i < |blocks|
        ensures blocks[i] != []
      {
        assert Flags(blocks)[i];
      }
    }
  }

  /** A status request leaves the opening and the blocks alone. */
  lemma StatusInFrames(h: seq<Inbound>, m: Inbound)
    requires m.msg.kind.StatusRequest?
    ensures Opening(h + [m], m.from) == Opening(h, m.from) && Taking(h + [m], m.from) == Taking(h, m.from)
    ensures Taking(h, m.from) ==> BlocksOf(h + [m], m.from) == BlocksOf(h, m.from)
    ensures Taken(h + [m], m.from) == (Taken(h, m.from) || (Complete(h, m.from) && Accepts(m.answer)))
  {
    assert (h + [m])[..|h + [m]| - 1] == h;
  }

  /** A status request hands the payload over exactly when the history says it is complete and not yet taken. */
  lemma StatusExplained(me: Address, h: seq<Inbound>, node: Node, m: Inbound)
    requires Explains(h, m.from, SessionOf(node, m.from)) && m.msg.kind.StatusRequest?
    ensures Explains(h + [m], m.from, SessionOf(ReactTo(me, node, m).node, m.from))
    ensures ReactTo(me, node, m).deliveries
         == if Complete(h, m.from) && !Taken(h, m.from)
            then [Delivery(m.from, Flatten(BlocksOf(h, m.from)), Accepts(m.answer))] else []
  {
    StatusInFrames(h, m);
    if Taking(h, m.from) {
      var s := node.sessions[m.from];
      AssembledNonEmpty(s);
      CompleteIsAllReceived(h, m.from, s.blocks);
    }
  }

  lemma OtherExplained(me: Address, h: seq<Inbound>, node: Node, m: Inbound)
    requires Explains(h, m.from, SessionOf(node, m.from))
    requires !m.msg.kind.Request? && !m.msg.kind.Transfer? && !m.msg.kind.StatusRequest?
    ensures Explains(h + [m], m.from, SessionOf(ReactTo(me, node, m).node, m.from))
  {
    assert (h + [m])[..|h + [m]| - 1] == h;
    if Taking(h, m.from) && !m.msg.kind.Abort? {
      assert BlocksOf(h + [m], m.from) == BlocksOf(h, m.from);
    }
  }

  lemma OthersExplained(me: Address, h: seq<Inbound>, node: Node, m: Inbound, p: Address)
    requires Explains(h, p, SessionOf(node, p)) && p != m.from
    ensures Explains(h + [m], p, SessionOf(ReactTo(me, node, m).node, p))
  {
    assert (h + [m])[..|h + [m]| - 1] == h;
    ReactLeavesOthers(me, node, m.from, m.msg, m.data, m.answer, p);
    if Taking(h, p) {
      assert BlocksOf(h + [m], p) == BlocksOf(h, p);
    }
  }

  lemma StepExplained(me: Address, h: seq<Inbound>, node: Node, m: Inbound, p: Address)
    requires Explains(h, p, SessionOf(node, p))
    ensures Explains(h + [m], p, SessionOf(ReactTo(me, node, m).node, p))
  {
    if p != m.from {
      OthersExplained(me, h, node, m, p);
    } else {
      match m.msg.kind {
        case Request => RequestExplained(me, h, node, m);
        case Transfer => TransferExplained(me, h, node, m);
        case StatusRequest => StatusExplained(me, h, node, m);
        case _ => OtherExplained(me, h, node, m);
      }
    }
  }

  lemma DeliveriesExplained(me: Address, h: seq<Inbound>, node: Node, m: Inbound)
    requires Explains(h, m.from, SessionOf(node, m.from))
    ensures Deliveries(h + [m]) == Deliveries(h) + ReactTo(me, node, m).deliveries
  {
    assert (h + [m])[..|h + [m]| - 1] == h;
    if m.msg.kind.StatusRequest? {
      StatusExplained(me, h, node, m);
    }
  }

  /**
   * The responder refines its history: after any frames from any peers, each session is the one its
   * peer's last request opened, block i is the peer's last transfer i since then, and the application
   * has been given exactly the complete payloads, in order.
   */
  lemma {:induction false} HistoryExplains(me: Address, h: seq<Inbound>)
    ensures forall p :: Explains(h, p, SessionOf(Play(me, FRESH_NODE, h).node, p))
    ensures Play(me, FRESH_NODE, h).deliveries == Deliveries(h)
  {
    if h != [] {
      var prefix, m := h[..|h| - 1], h[|h| - 1];
      HistoryExplains(me, prefix);
      var node := Play(me, FRESH_NODE, prefix).node;
      assert h == prefix + [m];
      DeliveriesExplained(me, prefix, node, m);
      forall p
        ensures Explains(h, p, SessionOf(Play(me, FRESH_NODE, h).node, p))
      {
        StepExplained(me, prefix, node, m, p);
      }
    }
  }

  // ---------- The session a played history leaves ----------

  function Held(me: Address, h: seq<Inbound>, p: Address): Option<Session> {
    SessionOf(Play(me, FRESH_NODE, h).node, p)
  }

  predicate Finished(me: Address, h: seq<Inbound>, p: Address) {
    Held(me, h, p).Some? && Held(me, h, p).value.done
  }

  /** Whether a report to p would show block i. */
  predicate Reported(me: Address, h: seq<Inbound>, p: Address, i: nat) {
    Held(me, h, p).Some? && BitmapBitIsSet(ReportPacket(me, p, Held(me, h, p).value).data, i)
  }

  /** Block i belongs to the session and its last transfer since the request carries data. */
  predicate Received(h: seq<Inbound>, p: Address, i: nat) {
    Taking(h, p) && i < |BlocksOf(h, p)| && BlocksOf(h, p)[i] != []
  }

  lemma HeldAsExplained(me: Address, h: seq<Inbound>, p: Address)
    ensures Explains(h, p, Held(me, h, p))
  {
    HistoryExplains(me, h);
  }

  lemma ReportedIsReceived(me: Address, h: seq<Inbound>, p: Address, i: nat)
    requires Taking(h, p)
    ensures Reported(me, h, p, i) <==> Received(h, p, i)
  {
    HeldAsExplained(me, h, p);
    ReportBits(me, p, Held(me, h, p).value);
  }

  lemma {:induction false} TakenIsTaking(h: seq<Inbound>, p: Address)
    ensures Taken(h, p) ==> Taking(h, p)
  {
    if h != [] {
      TakenIsTaking(h[..|h| - 1], p);
    }
  }

  lemma FinishedIsTaken(me: Address, h: seq<Inbound>, p: Address)
    ensures Finished(me, h, p) <==> Taken(h, p)
  {
    HeldAsExplained(me, h, p);
    TakenIsTaking(h, p);
  }

  // ---------- Every reply, read off the history ----------

  /** The reaction to the next frame. */
  function Next(me: Address, h: seq<Inbound>, m: Inbound): Reaction {
    ReactTo(me, Play(me, FRESH_NODE, h).node, m)
  }

  /** A reply that repeats sequence number and payload. */
  predicate Echoes(me: Address, m: Inbound, kind: SetKind, replies: seq<Packet>) {
    replies == [Packet(m.from, me, SetMsg(kind, m.msg.low6, false), m.data)]
  }

  /** The session has a block of this number. */
  predicate HasPlace(h: seq<Inbound>, p: Address, i: nat) {
    Taking(h, p) && i <= Opening(h, p).value.msg.low6
  }

  /** A request is granted if it names an address. */
  lemma RequestAnswered(me: Address, h: seq<Inbound>, m: Inbound)
    requires m.msg.kind.Request?
    ensures Echoes(me, m, if m.data != [] then SetKind.Ack else SetKind.Nack, Next(me, h, m).replies)
  {
  }

  /** A transfer is acknowledged if the session has a block of its number, and refused otherwise. */
  lemma TransferAnswered(me: Address, h: seq<Inbound>, m: Inbound)
    requires m.msg.kind.Transfer?
    ensures var kind := if HasPlace(h, m.from, m.msg.low6) then SetKind.Ack else SetKind.Nack;
            Echoes(me, m, kind, Next(me, h, m).replies)
  {
    HeldAsExplained(me, h, m.from);
  }

  /** A report of p's session: its size, whether the payload is taken, and a bit for each received block. */
  ghost predicate Reports(me: Address, h: seq<Inbound>, p: Address, taken: bool, replies: seq<Packet>)
    requires Taking(h, p)
  {
    && |replies| == 1
    && var q := replies[0];
       && q.to == p && q.from == me && q.msg.kind == SetKind.Report && q.msg.done == taken
       && q.msg.low6 == |q.data| == (Opening(h, p).value.msg.low6 + 8) / 8
       && forall i: nat :: BitmapBitIsSet(q.data, i) <==> Received(h, p, i)
  }

  lemma ReportOfHistory(me: Address, h: seq<Inbound>, p: Address, s: Session)
    requires Taking(h, p) && s.numBlocks == Opening(h, p).value.msg.low6 + 1 && s.blocks == BlocksOf(h, p)
    ensures Reports(me, h, p, s.done, [ReportPacket(me, p, s)])
  {
    ReportBits(me, p, s);
    var q := ReportPacket(me, p, s);
    forall i: nat
      ensures BitmapBitIsSet(q.data, i) <==> Received(h, p, i)
    {
    }
  }

  /** A status request is answered by a report of the session, or refused if there is none that takes blocks. */
  lemma StatusAnswered(me: Address, h: seq<Inbound>, m: Inbound)
    requires m.msg.kind.StatusRequest?
    ensures if Taking(h, m.from)
            then Reports(me, h, m.from, Taken(h + [m], m.from), Next(me, h, m).replies)
            else Echoes(me, m, SetKind.Nack, Next(me, h, m).replies)
  {
    var node := Play(me, FRESH_NODE, h).node;
    HeldAsExplained(me, h, m.from);
    if Taking(h, m.from) {
      StatusInFrames(h, m);
      StatusExplained(me, h, node, m);
      ReportOfHistory(me, h, m.from, Settle(node.sessions[m.from], m.answer));
    }
  }

  /** An abort is acknowledged, and replies are not answered. */
  lemma OthersAnswered(me: Address, h: seq<Inbound>, m: Inbound)
    requires !m.msg.kind.Request? && !m.msg.kind.Transfer? && !m.msg.kind.StatusRequest?
    ensures if m.msg.kind.Abort?
        then Echoes(me, m, SetKind.Ack, Next(me, h, m).replies) else Next(me, h, m).replies == []
  {
  }

  /** Whatever has happened before, the reply to the next frame is the one its kind and the history demand. */
  ghost predicate IsAnswer(me: Address, h: seq<Inbound>, m: Inbound, replies: seq<Packet>) {
    match m.msg.kind
    case Request => Echoes(me, m, if m.data != [] then SetKind.Ack else SetKind.Nack, replies)
    case Transfer => Echoes(me, m, if HasPlace(h, m.from, m.msg.low6) then SetKind.Ack else SetKind.Nack, replies)
    case StatusRequest =>
      if Taking(h, m.from) then Reports(me, h, m.from, Taken(h + [m], m.from), replies)
      else Echoes(me, m, SetKind.Nack, replies)
    case Abort => Echoes(me, m, SetKind.Ack, replies)
    case _ => replies == []
  }

  lemma RepliesExplained(me: Address, h: seq<Inbound>, m: Inbound)
    ensures IsAnswer(me, h, m, Next(me, h, m).replies)
  {
    match m.msg.kind
    case Request => RequestAnswered(me, h, m);
    case Transfer => TransferAnswered(me, h, m);
    case StatusRequest => StatusAnswered(me, h, m);
    case _ => OthersAnswered(me, h, m);
  }

  // ---------- At most one acceptance ----------

  /** How often the application took a payload from p since p's last request or abort. */
  function AcceptedSince(me: Address, h: seq<Inbound>, p: Address): nat {
    if h == [] then 0
    else
      var prefix, m := h[..|h| - 1], h[|h| - 1];
      if m.from == p && (m.msg.kind.Request? || m.msg.kind.Abort?) then 0
      else
        var now := ReactTo(me, Play(me, FRESH_NODE, prefix).node, m).deliveries;
        AcceptedSince(me, prefix, p) + |Filter(now, (d: Delivery) => d.from == p && d.accepted)|
  }

  lemma HeldByOthers(me: Address, h: seq<Inbound>, m: Inbound, p: Address)
    requires m.from != p
    ensures Held(me, h + [m], p) == Held(me, h, p)
  {
    assert (h + [m])[..|h + [m]| - 1] == h;
    ReactLeavesOthers(me, Play(me, FRESH_NODE, h).node, m.from, m.msg, m.data, m.answer, p);
  }

  lemma NoneForOthers(me: Address, node: Node, m: Inbound, p: Address)
    requires m.from != p
    ensures Filter(ReactTo(me, node, m).deliveries, (d: Delivery) => d.from == p && d.accepted) == []
  {
    ReactAnswersSender(me, node, m.from, m.msg, m.data, m.answer);
    FilterAlike(ReactTo(me, node, m).deliveries, (d: Delivery) => d.from == p && d.accepted, false);
  }

  /** The application took one payload since then if the session is finished, and none if it is not. */
  lemma {:induction false} AtMostOneAcceptance(me: Address, h: seq<Inbound>, p: Address)
    ensures AcceptedSince(me, h, p) == if Finished(me, h, p) then 1 else 0
  {
    if h != [] {
      var prefix, m := h[..|h| - 1], h[|h| - 1];
      assert h == prefix + [m];
      AtMostOneAcceptance(me, prefix, p);
      if m.from != p {
        HeldByOthers(me, prefix, m, p);
        NoneForOthers(me, Play(me, FRESH_NODE, prefix).node, m, p);
      } else if !m.msg.kind.Request? && !m.msg.kind.Abort? {
        OneDelivery(me, Play(me, FRESH_NODE, prefix).node, m);
      }
    }
  }

  /** A frame from p makes the session finished exactly if the application takes its payload. */
  lemma OneDelivery(me: Address, node: Node, m: Inbound)
    requires !m.msg.kind.Request? && !m.msg.kind.Abort?
    ensures var r := ReactTo(me, node, m);
            var before, after := SessionOf(node, m.from), SessionOf(r.node, m.from);
            var wasDone, isDone := before.Some? && before.value.done, after.Some? && after.value.done;
            (if isDone then 1 else 0)
            == (if wasDone then 1 else 0) + |Filter(r.deliveries, (d: Delivery) => d.from == m.from && d.accepted)|
  {
    var ds := ReactTo(me, node, m).deliveries;
    if ds != [] {
      assert ds == [ds[0]] && ds[..0] == [];
    }
  }

  /** From here on the peer neither reopens nor aborts its session. */
  predicate Continues(more: seq<Inbound>, p: Address) {
    forall i :: 0 <= i < |more| && more[i].from == p ==> !more[i].msg.kind.Request? && !more[i].msg.kind.Abort?
  }

  lemma FinishedStep(me: Address, h: seq<Inbound>, m: Inbound, p: Address)
    requires Finished(me, h, p) && Continues([m], p)
    ensures Finished(me, h + [m], p)
  {
    assert (h + [m])[..|h + [m]| - 1] == h && [m][0] == m;
    if m.from != p {
      HeldByOthers(me, h, m, p);
    }
  }

  /** Between requests and aborts of a peer, a finished session stays finished. */
  lemma {:induction false} FinishedStays(me: Address, h: seq<Inbound>, more: seq<Inbound>, p: Address)
    requires Finished(me, h, p) && Continues(more, p)
    ensures Finished(me, h + more, p)
  {
    if more == [] {
      assert h + more == h;
    } else {
      var less := more[..|more| - 1];
      FinishedStays(me, h, less, p);
      FinishedStep(me, h + less, more[|more| - 1], p);
      assert h + more == h + less + [more[|more| - 1]];
    }
  }

  /** A refused payload is offered again by every status request that still finds all blocks, until it is taken. */
  lemma RefusedIsOfferedAgain(me: Address, h: seq<Inbound>, m: Inbound)
    requires m.msg.kind.StatusRequest? && Held(me, h, m.from).Some? && Held(me, h, m.from).value.accepted
    requires !Finished(me, h, m.from) && AllBlocksReceived(Flags(Held(me, h, m.from).value.blocks))
    ensures var before, session := Play(me, FRESH_NODE, h), Held(me, h, m.from).value;
            && Play(me, FRESH_NODE, h + [m]).deliveries
               == before.deliveries + [Delivery(m.from, Flatten(session.blocks), Accepts(m.answer))]
            && Held(me, h + [m], m.from) == Some(session.(done := Accepts(m.answer)))
  {
    assert (h + [m])[..|h + [m]| - 1] == h;
    AssembledNonEmpty(Held(me, h, m.from).value);
  }

  // ---------- When reports only gain bits, and finished sessions stay full ----------

  /** An empty transfer that carries the number of a received block. */
  predicate TakesBack(h: seq<Inbound>, m: Inbound, p: Address) {
    m.from == p && m.msg.kind.Transfer? && m.data == [] && Received(h, p, m.msg.low6)
  }

  lemma ReceivedStep(h: seq<Inbound>, m: Inbound, p: Address, i: nat)
    requires Taking(h, p) && Continues([m], p)
    ensures Taking(h + [m], p) && |BlocksOf(h + [m], p)| == |BlocksOf(h, p)|
    ensures Received(h, p, i) ==> (Received(h + [m], p, i) <==> !(TakesBack(h, m, p) && m.msg.low6 == i))
  {
    assert (h + [m])[..|h + [m]| - 1] == h;
    assert [m][0] == m;
  }

  /** The history after the first j of the further frames. */
  function Upto(h: seq<Inbound>, more: seq<Inbound>, j: nat): seq<Inbound>
    requires j <= |more|
  {
    h + more[..j]
  }

  lemma UptoStep(h: seq<Inbound>, more: seq<Inbound>, j: nat)
    requires j < |more|
    ensures Upto(h, more, j + 1) == Upto(h, more, j) + [more[j]]
  {
  }

  lemma {:induction false} TakingStays(h: seq<Inbound>, more: seq<Inbound>, p: Address, j: nat)
    requires Taking(h, p) && Continues(more, p) && j <= |more|
    ensures Taking(Upto(h, more, j), p)
  {
    if j == 0 {
      assert Upto(h, more, 0) == h;
    } else {
      TakingStays(h, more, p, j - 1);
      UptoStep(h, more, j - 1);
      ReceivedStep(Upto(h, more, j - 1), more[j - 1], p, 0);
    }
  }

  /** No received block is taken back. */
  ghost predicate NeverTakesBack(h: seq<Inbound>, more: seq<Inbound>, p: Address) {
    forall j :: 0 <= j < |more| ==> !TakesBack(Upto(h, more, j), more[j], p)
  }

  /** Later reports have every bit of earlier ones. */
  ghost predicate OnlyGainsBits(me: Address, h: seq<Inbound>, more: seq<Inbound>, p: Address) {
    forall j: nat, k: nat, i: nat | j <= k <= |more| ::
      Reported(me, Upto(h, more, j), p, i) ==> Reported(me, Upto(h, more, k), p, i)
  }

  lemma {:induction false} ReceivedStays(h: seq<Inbound>, more: seq<Inbound>, p: Address, i: nat, j: nat, k: nat)
    requires Taking(h, p) && Continues(more, p) && NeverTakesBack(h, more, p)
    requires j <= k <= |more| && Received(Upto(h, more, j), p, i)
    ensures Received(Upto(h, more, k), p, i)
  {
    if j < k {
      ReceivedStays(h, more, p, i, j, k - 1);
      UptoStep(h, more, k - 1);
      ReceivedStep(Upto(h, more, k - 1), more[k - 1], p, i);
    }
  }

  lemma TakingBackLosesABit(me: Address, h: seq<Inbound>, more: seq<Inbound>, p: Address, j: nat)
    requires Taking(h, p) && Continues(more, p) && j < |more| && TakesBack(Upto(h, more, j), more[j], p)
    ensures Reported(me, Upto(h, more, j), p, more[j].msg.low6)
        && !Reported(me, Upto(h, more, j + 1), p, more[j].msg.low6)
  {
    var i := more[j].msg.low6;
    UptoStep(h, more, j);
    ReceivedStep(Upto(h, more, j), more[j], p, i);
    ReportedIsReceived(me, Upto(h, more, j), p, i);
    ReportedIsReceived(me, Upto(h, more, j + 1), p, i);
  }

  /** The reports of a session only gain bits if and only if no empty transfer takes a received block back. */
  lemma ReportsOnlyGainBits(me: Address, h: seq<Inbound>, more: seq<Inbound>, p: Address)
    requires Taking(h, p) && Continues(more, p)
    ensures OnlyGainsBits(me, h, more, p) <==> NeverTakesBack(h, more, p)
  {
    if NeverTakesBack(h, more, p) {
      forall j: nat, k: nat, i: nat | j <= k <= |more| && Reported(me, Upto(h, more, j), p, i)
        ensures Reported(me, Upto(h, more, k), p, i)
      {
        TakingStays(h, more, p, j);
        TakingStays(h, more, p, k);
        ReportedIsReceived(me, Upto(h, more, j), p, i);
        ReceivedStays(h, more, p, i, j, k);
        ReportedIsReceived(me, Upto(h, more, k), p, i);
      }
    } else {
      var j :| 0 <= j < |more| && TakesBack(Upto(h, more, j), more[j], p);
      TakingBackLosesABit(me, h, more, p, j);
    }
  }

  /** If the session is finished, a report shows every block. */
  ghost predicate FinishedIsFull(me: Address, h: seq<Inbound>, p: Address) {
    Finished(me, h, p) ==> forall i: nat :: i < Held(me, h, p).value.numBlocks ==> Reported(me, h, p, i)
  }

  lemma FinishedIsFullInFrames(me: Address, h: seq<Inbound>, p: Address)
    ensures FinishedIsFull(me, h, p) <==> (Taken(h, p) ==> Complete(h, p))
  {
    FinishedIsTaken(me, h, p);
    if Taken(h, p) {
      TakenIsTaking(h, p);
      HeldAsExplained(me, h, p);
      forall i: nat
        ensures Reported(me, h, p, i) <==> Received(h, p, i)
      {
        ReportedIsReceived(me, h, p, i);
      }
      if FinishedIsFull(me, h, p) {
        forall i | 0 <= i < |BlocksOf(h, p)|
          ensures BlocksOf(h, p)[i] != []
        {
          assert Reported(me, h, p, i);
        }
      }
    }
  }

  lemma CompleteIsReceived(h: seq<Inbound>, p: Address)
    requires Taking(h, p)
    ensures Complete(h, p) <==> forall i: nat :: i < |BlocksOf(h, p)| ==> Received(h, p, i)
  {
    if forall i: nat :: i < |BlocksOf(h, p)| ==> Received(h, p, i) {
      forall i | 0 <= i < |BlocksOf(h, p)|
        ensures BlocksOf(h, p)[i] != []
      {
        assert Received(h, p, i);
      }
    }
  }

  lemma CompleteStep(h: seq<Inbound>, m: Inbound, p: Address)
    requires Continues([m], p) && Complete(h, p)
    ensures Complete(h + [m], p) <==> !TakesBack(h, m, p)
  {
    ReceivedStep(h, m, p, 0);
    CompleteIsReceived(h, p);
    CompleteIsReceived(h + [m], p);
    forall i: nat | i < |BlocksOf(h, p)|
      ensures Received(h + [m], p, i) <==> !(TakesBack(h, m, p) && m.msg.low6 == i)
    {
      ReceivedStep(h, m, p, i);
    }
    if TakesBack(h, m, p) {
      ReceivedStep(h, m, p, m.msg.low6);
      assert !Received(h + [m], p, m.msg.low6);
    }
  }

  /** One frame can only break it by taking a block of a taken payload back, and then does. */
  lemma FullStep(h: seq<Inbound>, m: Inbound, p: Address)
    requires Continues([m], p) && (Taken(h, p) ==> Complete(h, p))
    ensures (Taken(h + [m], p) ==> Complete(h + [m], p)) <==> !(Taken(h, p) && TakesBack(h, m, p))
  {
    assert (h + [m])[..|h + [m]| - 1] == h && [m][0] == m;
    if Complete(h, p) {
      CompleteStep(h, m, p);
    }
  }

  /**
   * From its request on, a finished session is always full if and only if no empty transfer takes back a
   * block after the application took the payload.
   */
  lemma FinishedStaysFull(me: Address, before: seq<Inbound>, request: Inbound, more: seq<Inbound>, p: Address)
    requires request.from == p && request.msg.kind.Request? && Continues(more, p)
    ensures var h := before + [request];
            (forall k: nat :: k <= |more| ==> FinishedIsFull(me, Upto(h, more, k), p))
            <==> (forall j: nat :: j < |more| && Taken(Upto(h, more, j), p) ==>
                !TakesBack(Upto(h, more, j), more[j], p))
  {
    var h := before + [request];
    assert Upto(h, more, 0) == h && !Taken(h, p);
    if j: nat :| j < |more| && Taken(Upto(h, more, j), p) && TakesBack(Upto(h, more, j), more[j], p) {
      FinishedIsFullInFrames(me, Upto(h, more, j), p);
      FinishedIsFullInFrames(me, Upto(h, more, j + 1), p);
      UptoStep(h, more, j);
      if Taken(Upto(h, more, j), p) ==> Complete(Upto(h, more, j), p) {
        FullStep(Upto(h, more, j), more[j], p);
      }
    } else {
      forall k: nat | k <= |more|
        ensures FinishedIsFull(me, Upto(h, more, k), p)
      {
        FullAlong(h, more, p, k);
        FinishedIsFullInFrames(me, Upto(h, more, k), p);
      }
    }
  }

  lemma {:induction false} FullAlong(h: seq<Inbound>, more: seq<Inbound>, p: Address, k: nat)
    requires Continues(more, p) && k <= |more| && !Taken(h, p)
    requires forall j: nat :: j < |more| && Taken(Upto(h, more, j), p) ==> !TakesBack(Upto(h, more, j), more[j], p)
    ensures Taken(Upto(h, more, k), p) ==> Complete(Upto(h, more, k), p)
  {
    if k == 0 {
      assert Upto(h, more, 0) == h;
    } else {
      FullAlong(h, more, p, k - 1);
      UptoStep(h, more, k - 1);
      FullStep(Upto(h, more, k - 1), more[k - 1], p);
    }
  }

  /** A session of one block that the application has taken. */
  lemma OneBlockTaken(p: Address) returns (h: seq<Inbound>)
    ensures Taken(h, p) && Taking(h, p) && Received(h, p, 0)
  {
    var h1 := [Inbound(p, SetMsg(SetKind.Request, 0, false), [7], NoHandler)];
    var h2 := h1 + [Inbound(p, SetMsg(SetKind.Transfer, 0, false), [9], NoHandler)];
    h := h2 + [Inbound(p, SetMsg(SetKind.StatusRequest, 0, false), [], NoHandler)];
    assert h[..|h| - 1] == h2 && h2[..|h2| - 1] == h1;
    assert Opening(h1, p) == Some(h1[0]) && Opening(h2, p) == Some(h1[0]);
    assert BlocksOf(h2, p) == [[9]] && Complete(h2, p);
    StatusInFrames(h2, h[2]);
  }

  /** It happens: a transfer without data takes back the block of a finished session, and its report loses the bit. */
  lemma EmptyTransferClearsABit()
    ensures exists me, h, m, p :: Finished(me, h, p) && Reported(me, h, p, 0)
                                  && Finished(me, h + [m], p) && !Reported(me, h + [m], p, 0)
  {
    var me, p := Address(2), Address(1);
    var h := OneBlockTaken(p);
    var m := Inbound(p, SetMsg(SetKind.Transfer, 0, false), [], NoHandler);
    FinishedIsTaken(me, h, p);
    FinishedStep(me, h, m, p);
    assert Upto(h, [m], 0) == h && Upto(h, [m], 1) == h + [m];
    TakingBackLosesABit(me, h, [m], p, 0);
  }
}
