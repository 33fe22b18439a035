/** The GETBLOCK responder over whole histories: peers are independent, and sessions hold the last usable response. */
module GetBlockHistory {
  import opened CanTypes
  import opened Codec
  import opened Blocks
  import opened GetBlockSpec
  import opened GetBlockRun
  import opened Sequences

  /** All that a history of inbound frames does, frame by frame. */
  function Play(me: Address, start: Node, h: seq<Inbound>): Reaction {
    if h == [] then Reaction(start, [], [])
    else
      var before := Play(me, start, h[..|h| - 1]);
      var r := ReactTo(me, before.node, h[|h| - 1]);
      Reaction(r.node, before.replies + r.replies, before.served + r.served)
  }

  lemma PlayOne(me: Address, start: Node, h: seq<Inbound>, m: Inbound)
    ensures Play(me, start, h + [m]).node == ReactTo(me, Play(me, start, h).node, m).node
  {
    assert (h + [m])[..|h + [m]| - 1] == h;
  }

  function OnlyFrom(h: seq<Inbound>, p: Address): seq<Inbound> {
    Filter(h, (m: Inbound) => m.from == p)
  }

  function RepliesTo(replies: seq<Packet>, p: Address): seq<Packet> {
    Filter(replies, (q: Packet) => q.to == p)
  }

  /** What one more frame adds for a peer: everything if it is the sender, nothing otherwise. */
  lemma FilterReplies(replies: seq<Packet>, more: seq<Packet>, from: Address, p: Address)
    requires forall q :: q in more ==> q.to == from
    ensures RepliesTo(replies + more, p) == RepliesTo(replies, p) + if from == p then more else []
  {
    FilterAppend(replies, more, (q: Packet) => q.to == p);
    FilterAlike(more, (q: Packet) => q.to == p, from == p);
  }

  lemma OwnSessionDecides(me: Address, n1: Node, n2: Node, m: Inbound)
    requires SessionOf(n1, m.from) == SessionOf(n2, m.from)
    ensures var r1, r2 := ReactTo(me, n1, m), ReactTo(me, n2, m);
            && SessionOf(r1.node, m.from) == SessionOf(r2.node, m.from)
            && r1.replies == r2.replies
  {
  }

  /** For every peer, the run looks as if the other peers had been silent. */
  lemma {:induction false} PeersDoNotInterfere(me: Address, start: Node, h: seq<Inbound>, p: Address)
    ensures var all, own := Play(me, start, h), Play(me, start, OnlyFrom(h, p));
            && SessionOf(all.node, p) == SessionOf(own.node, p)
            && RepliesTo(all.replies, p) == RepliesTo(own.replies, p)
  {
    if h != [] {
      var prefix, m := h[..|h| - 1], h[|h| - 1];
      PeersDoNotInterfere(me, start, prefix, p);
      var all, own := Play(me, start, prefix), Play(me, start, OnlyFrom(prefix, p));
      var r := ReactTo(me, all.node, m);
      ReactAnswersSender(me, all.node, m.from, m.msg, m.data, m.answer);
      FilterReplies(all.replies, r.replies, m.from, p);
      if m.from == p {
        OwnSessionDecides(me, all.node, own.node, m);
        FilterReplies(own.replies, r.replies, m.from, p);
        assert OnlyFrom(h, p)[..|OnlyFrom(h, p)| - 1] == OnlyFrom(prefix, p);
      } else {
        ReactLeavesOthers(me, all.node, m.from, m.msg, m.data, m.answer, p);
      }
    }
  }

  /** A request that names an address and for which the application has a response of exactly that many blocks. */
  predicate Grants(m: Inbound) {
    && m.msg.kind.Request? && m.data != []
    && m.answer.Provides? && |m.answer.response| == 8 * (m.msg.low6 + 1)
  }

  lemma GrantsIsUsable(m: Inbound)
    requires m.msg.kind.Request?
    ensures Grants(m) <==> Usable(m.msg.low6, m.data, m.answer)
  {
  }

  /** The request a peer's session stems from: its last granted one, unless it aborted since. */
  function Opening(h: seq<Inbound>, p: Address): Option<Inbound> {
    if h == [] then None
    else
      var m := h[|h| - 1];
      if m.from == p && Grants(m) then Some(m)
      else if m.from == p && m.msg.kind.Abort? then None
      else Opening(h[..|h| - 1], p)
  }

  /** Block i of a response. */
  function BlockOf(response: seq<Byte>, i: nat): Payload
    requires 8 * i + 8 <= |response|
  {
    response[8 * i..8 * i + 8]
  }

  ghost predicate Explains(h: seq<Inbound>, p: Address, session: Option<Session>) {
    match Opening(h, p)
    case None => session.None?
    case Some(m) =>
      && Grants(m) && session.Some?
      && session.value.peer == p && session.value.address == m.data
      && session.value.numBlocks == m.msg.low6 + 1
      && forall i :: 0 <= i < session.value.numBlocks ==> session.value.blocks[i] == BlockOf(m.answer.response, i)
  }

  /** One more frame, as the history sees it. */
  lemma OpeningStep(h: seq<Inbound>, m: Inbound, p: Address)
    ensures Opening(h + [m], p) == if m.from == p && Grants(m) then Some(m)
                                   else if m.from == p && m.msg.kind.Abort? then None else Opening(h, p)
  {
    assert (h + [m])[..|h + [m]| - 1] == h;
  }

  lemma GrantExplained(me: Address, node: Node, m: Inbound)
    requires Grants(m)
    ensures SessionOf(ReactTo(me, node, m).node, m.from)
         == Some(OpenSession(m.from, m.msg.low6, m.data, m.answer.response))
  {
    GrantsIsUsable(m);
  }

  /** Anything but a granted request and an abort of p leaves p's session alone. */
  lemma SessionStays(me: Address, node: Node, m: Inbound, p: Address)
    requires m.from == p ==> !Grants(m) && !m.msg.kind.Abort?
    ensures SessionOf(ReactTo(me, node, m).node, p) == SessionOf(node, p)
  {
    if m.msg.kind.Request? {
      GrantsIsUsable(m);
    }
    if m.from != p || m.msg.kind.Start? || m.msg.kind.Request? {
      ReactLeavesOthers(me, node, m.from, m.msg, m.data, m.answer, p);
    }
  }

  lemma StepExplained(me: Address, h: seq<Inbound>, node: Node, m: Inbound, p: Address)
    requires Explains(h, p, SessionOf(node, p))
    ensures Explains(h + [m], p, SessionOf(ReactTo(me, node, m).node, p))
  {
    OpeningStep(h, m, p);
    if m.from == p && Grants(m) {
      GrantExplained(me, node, m);
    } else if !(m.from == p && m.msg.kind.Abort?) {
      SessionStays(me, node, m, p);
    }
  }

  /**
   * After any frames from any peers, each session is the one its peer's last granted request opened, with the
   * response of that request in its blocks; refused requests leave it intact.
   */
  lemma {:induction false} HistoryExplains(me: Address, data: seq<Byte>, h: seq<Inbound>, p: Address)
    ensures Explains(h, p, SessionOf(Play(me, Node(map[], CLEARED, data), h).node, p))
  {
    if h != [] {
      var prefix, m := h[..|h| - 1], h[|h| - 1];
      HistoryExplains(me, data, prefix, p);
      assert h == prefix + [m];
      StepExplained(me, prefix, Play(me, Node(map[], CLEARED, data), prefix).node, m, p);
    }
  }

  // ---------- Every reply, read off the history ----------

  /** The reaction to the next frame. */
  function Next(me: Address, data: seq<Byte>, h: seq<Inbound>, m: Inbound): Reaction {
    ReactTo(me, Play(me, Node(map[], CLEARED, data), h).node, m)
  }

  /** A reply that repeats sequence number and payload. */
  predicate Echoes(me: Address, m: Inbound, kind: GetKind, replies: seq<Packet>) {
    replies == [Packet(m.from, me, GetMsg(kind, m.msg.low6), m.data)]
  }

  /** The transfer of block i. */
  function TransferTo(me: Address, p: Address, open: Inbound, i: nat): Packet
    requires Grants(open) && i <= open.msg.low6
  {
    Packet(p, me, GetMsg(GetKind.Transfer, i), BlockOf(open.answer.response, i))
  }

  /** The x-th transfer carries a selected block of the response, with a larger number than those before it. */
  ghost predicate IsNextTransfer(me: Address, m: Inbound, open: Inbound, replies: seq<Packet>, x: nat)
    requires Grants(open) && x < |replies|
  {
    var i := replies[x].msg.low6;
    && i <= open.msg.low6 && BitmapBitIsSet(m.data, i) && replies[x] == TransferTo(me, m.from, open, i)
    && forall y :: 0 <= y < x ==> replies[y].msg.low6 < i
  }

  /** The transfers of exactly the blocks selected by the payload of a start frame, in increasing order. */
  ghost predicate Transfers(me: Address, m: Inbound, open: Inbound, replies: seq<Packet>)
    requires Grants(open)
  {
    && (forall x :: 0 <= x < |replies| ==> IsNextTransfer(me, m, open, replies, x))
    && forall i: nat :: i <= open.msg.low6 && BitmapBitIsSet(m.data, i) ==> TransferTo(me, m.from, open, i) in replies
  }

  lemma StartAnswered(me: Address, data: seq<Byte>, h: seq<Inbound>, m: Inbound)
    requires m.msg.kind.Start?
    ensures match Opening(h, m.from)
            case None => Echoes(me, m, GetKind.Nack, Next(me, data, h, m).replies)
            case Some(open) => Grants(open) && Transfers(me, m, open, Next(me, data, h, m).replies)
  {
    HistoryExplains(me, data, h, m.from);
    if Opening(h, m.from).Some? {
      TransfersOfSession(me, Play(me, Node(map[], CLEARED, data), h).node, m, Opening(h, m.from).value);
    }
  }

  lemma TransfersOfSession(me: Address, node: Node, m: Inbound, open: Inbound)
    requires m.msg.kind.Start? && Grants(open) && m.from in node.sessions
    requires var s := node.sessions[m.from];
             && s.numBlocks == open.msg.low6 + 1
             && forall i :: 0 <= i < s.numBlocks ==> s.blocks[i] == BlockOf(open.answer.response, i)
    ensures Transfers(me, m, open, ReactTo(me, node, m).replies)
  {
    var s, ps := node.sessions[m.from], ReactTo(me, node, m).replies;
    SelectedExactly(me, m.from, s.blocks, m.data, s.numBlocks);
    SelectedInOrder(me, m.from, s.blocks, m.data, s.numBlocks);
    forall x | 0 <= x < |ps|
      ensures IsNextTransfer(me, m, open, ps, x)
    {
      assert IsTransferOf(ps[x], me, m.from, s.blocks, s.numBlocks);
      assert Sends(ps, me, m.from, s.blocks, m.data, ps[x].msg.low6);
    }
    forall i: nat | i <= open.msg.low6 && BitmapBitIsSet(m.data, i)
      ensures TransferTo(me, m.from, open, i) in ps
    {
      assert Sends(ps, me, m.from, s.blocks, m.data, i);
    }
  }

  /** Whatever has happened before, the replies to the next frame are those its kind and the history demand. */
  ghost predicate IsAnswer(me: Address, h: seq<Inbound>, m: Inbound, replies: seq<Packet>) {
    match m.msg.kind
    case Request => Echoes(me, m, if Grants(m) then GetKind.Ack else GetKind.Nack, replies)
    case Start =>
      (match Opening(h, m.from)
       case None => Echoes(me, m, GetKind.Nack, replies)
       case Some(open) => Grants(open) && Transfers(me, m, open, replies))
    case _ => replies == []
  }

  lemma RepliesExplained(me: Address, data: seq<Byte>, h: seq<Inbound>, m: Inbound)
    ensures IsAnswer(me, h, m, Next(me, data, h, m).replies)
  {
    match m.msg.kind
    case Request => GrantsIsUsable(m);
    case Start => StartAnswered(me, data, h, m);
    case _ =>
  }
}
