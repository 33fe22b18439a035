/**
 * A block write between two whole nodes that exchange messages over a lossy bus: what the write network proves
 * of the managers, carried to what the nodes send and what the application is really asked.
 */
module EndpointWrites {
  import opened CanTypes
  import opened Codec
  import opened Blocks
  import opened Sequences
  import opened SetBlockSpec
  import opened ProtocolSpec
  import Network = SetBlockNetwork

  type Write = Network.Write

  /** A message that b has handled, with the application's answers and what it was asked. */
  datatype Handled = Handled(m: Message, answers: Answers, asked: seq<Consultation>)

  datatype Net = Net(pc: Pc, a: Endpoint, b: Endpoint, flight: multiset<Message>, handled: seq<Handled>)

  datatype Event =
    | Proceed(sendOk: bool)                         // the writing thread runs its next section
    | AtA(m: Message, keep: bool, answers: Answers) // a message reaches a; keep leaves a duplicate in flight
    | AtB(m: Message, keep: bool, answers: Answers) // a message reaches b
    | Drop(m: Message)
    | Inject(m: Message)                            // any other traffic

  predicate Reaches(m: Message, node: Address) {
    m.to == node || m.to == BROADCAST
  }

  function PacketOf(m: Message): Packet
    requires m.body.SetBlock?
  {
    Packet(m.to, m.from, m.body.setMsg, m.data)
  }

  /** SETBLOCK messages that the two ends of the write act on for each other. */
  predicate Relevant(t: Write, m: Message) {
    m.body.SetBlock? && Network.Relevant(t, PacketOf(m))
  }

  /** Anything else: other nodes, other protocols, other transactions of a and b. */
  predicate Foreign(t: Write, m: Message) {
    m.body.SetBlock? ==> m.from != BROADCAST && !Relevant(t, m)
  }

  predicate Enabled(t: Write, s: Net, e: Event) {
    match e
    case Proceed(_) => WellPlaced(t.job, s.pc)
    case AtA(m, _, _) => m in s.flight && Reaches(m, t.a)
    case AtB(m, _, _) => m in s.flight && Reaches(m, t.b)
    case Drop(m) => m in s.flight
    case Inject(m) => Foreign(t, m)
  }

  function Left(flight: multiset<Message>, m: Message, keep: bool): multiset<Message> {
    if keep then flight else flight - multiset{m}
  }

  function Apply(t: Write, s: Net, e: Event): Net
    requires Enabled(t, s, e)
  {
    match e
    case Proceed(sendOk) =>
      var move := Advance(t.a, t.job, s.pc, s.a.setBlock.pending, sendOk);
      s.(pc := move.pc, a := s.a.(setBlock := s.a.setBlock.(pending := move.pending)),
         flight := s.flight + multiset(FromSet(move.sent)))
    case AtA(m, keep, answers) =>
      var o := Dispatch(t.a, s.a, m, answers);
      s.(a := o.state, flight := Left(s.flight, m, keep) + multiset(o.replies))
    case AtB(m, keep, answers) =>
      var o := Dispatch(t.b, s.b, m, answers);
      s.(b := o.state, flight := Left(s.flight, m, keep) + multiset(o.replies),
         handled := s.handled + [Handled(m, answers, o.consulted)])
    case Drop(m) => s.(flight := s.flight - multiset{m})
    case Inject(m) => s.(flight := s.flight + multiset{m})
  }

  ghost predicate Steps(t: Write, states: seq<Net>, events: seq<Event>, i: nat)
    requires |states| == |events| + 1 && i < |events|
  {
    Enabled(t, states[i], events[i]) && states[i + 1] == Apply(t, states[i], events[i])
  }

  ghost predicate IsRun(t: Write, states: seq<Net>, events: seq<Event>) {
    |states| == |events| + 1 && forall i :: 0 <= i < |events| ==> Steps(t, states, events, i)
  }

  /**
   * A write is about to start. The nodes may be in any state otherwise, b may hold any old session, and frames
   * with the given marks may still be in flight between the two nodes.
   */
  ghost predicate Initial(t: Write, s: Net, stale: set<Network.Mark>) {
    && t.a != t.b && t.a != BROADCAST && t.b != BROADCAST && t.job.to == t.b
    && s.pc == Begin && s.a.setBlock.pending == CLEARED && s.handled == []
    && (forall m :: m in s.flight && m.body.SetBlock? ==> m.from != BROADCAST)
    && (forall m :: m in s.flight && Relevant(t, m) ==> Network.MarkOf(PacketOf(m)) in stale)
  }

  /** A status request of a made b's application take exactly this payload, or b had no handler to ask. */
  predicate Took(t: Write, x: Handled, payload: seq<Byte>) {
    && x.m.from == t.a && x.m.body.SetBlock? && x.m.body.setMsg.kind.StatusRequest?
    && if x.answers.setBlock == NoHandler then x.asked == []
       else x.answers.setBlock == Answered(true) && x.asked == [AskWrite(t.a, payload)]
  }

  predicate Put(t: Write, handled: seq<Handled>) {
    exists k :: 0 <= k < |handled| && Took(t, handled[k], Padded(t.job.data))
  }

  // ---------- The managers inside the nodes ----------

  /** The two managers, with these packets in flight and these deliveries made. */
  function Core(s: Net, flight: multiset<Packet>, ds: seq<Delivery>): Network.Net {
    Network.Net(s.pc, s.a.setBlock, s.b.setBlock, flight, ds)
  }

  /** The delivery is what b's application was asked about when this message was handled. */
  predicate IsAccount(d: Delivery, x: Handled) {
    && x.m.from == d.from && x.m.body.SetBlock? && x.m.body.setMsg.kind.StatusRequest?
    && if x.answers.setBlock == NoHandler then d.accepted && x.asked == []
       else x.answers.setBlock == Answered(d.accepted) && x.asked == [AskWrite(d.from, d.payload)]
  }

  ghost predicate HasAccount(d: Delivery, handled: seq<Handled>) {
    exists k :: 0 <= k < |handled| && IsAccount(d, handled[k])
  }

  ghost predicate HasDelivery(c: Consultation, ds: seq<Delivery>)
    requires c.AskWrite?
  {
    exists x :: 0 <= x < |ds| && ds[x].from == c.from && ds[x].payload == c.payload
  }

  ghost predicate AllDelivered(x: Handled, ds: seq<Delivery>) {
    forall c :: c in x.asked && c.AskWrite? ==> HasDelivery(c, ds)
  }

  ghost predicate Accounted(ds: seq<Delivery>, handled: seq<Handled>) {
    && (forall x :: 0 <= x < |ds| ==> HasAccount(ds[x], handled))
    && (forall k :: 0 <= k < |handled| ==> AllDelivered(handled[k], ds))
  }

  ghost predicate CleanHere(t: Write, s: Net, ds: seq<Delivery>, sizes: Network.Sizes) {
    Network.Clean(t, s.b.setBlock, ds, sizes)
  }

  ghost predicate GoodMessage(t: Write, m: Message, clean: bool, ds: seq<Delivery>, sizes: Network.Sizes) {
    m.body.SetBlock? ==> Network.GoodPacket(t, PacketOf(m), clean, ds, sizes)
  }

  ghost predicate Inv(t: Write, s: Net, ds: seq<Delivery>, sizes: Network.Sizes) {
    && Network.Inv(t, Core(s, multiset{}, ds), sizes)
    && (forall m :: m in s.flight ==> GoodMessage(t, m, CleanHere(t, s, ds, sizes), ds, sizes))
    && Accounted(ds, s.handled)
  }

  lemma CoreWith(t: Write, s: Net, m: Message, ds: seq<Delivery>, sizes: Network.Sizes)
    requires Inv(t, s, ds, sizes) && m in s.flight && m.body.SetBlock?
    ensures Network.Inv(t, Core(s, multiset{PacketOf(m)}, ds), sizes)
  {
    assert GoodMessage(t, m, CleanHere(t, s, ds, sizes), ds, sizes);
  }

  lemma MessagesOf(ps: seq<Packet>, m: Message)
    requires m in FromSet(ps)
    ensures m.body.SetBlock? && PacketOf(m) in ps
  {
    var x :| 0 <= x < |ps| && FromSet(ps)[x] == m;
    assert PacketOf(m) == ps[x];
  }

  lemma ProceedKeeps(t: Write, s: Net, sendOk: bool, ds: seq<Delivery>, sizes: Network.Sizes)
    requires Inv(t, s, ds, sizes) && Enabled(t, s, Proceed(sendOk))
    ensures Inv(t, Apply(t, s, Proceed(sendOk)), ds, sizes)
  {
    var core, after := Core(s, multiset{}, ds), Apply(t, s, Proceed(sendOk));
    var sent := Advance(t.a, t.job, s.pc, s.a.setBlock.pending, sendOk).sent;
    Network.ActStep(t, core, sendOk, sizes);
    Network.AdvanceSendsGood(t, core, sendOk, sizes);
    assert Network.Inv(t, Core(after, multiset{}, ds), sizes);
    forall m | m in after.flight
      ensures GoodMessage(t, m, CleanHere(t, after, ds, sizes), ds, sizes)
    {
      if m in FromSet(sent) {
        MessagesOf(sent, m);
      } else {
        assert m in s.flight;
      }
    }
  }

  lemma AKeeps(t: Write, s: Net, m: Message, keep: bool, answers: Answers, ds: seq<Delivery>, sizes: Network.Sizes)
    requires Inv(t, s, ds, sizes) && Enabled(t, s, AtA(m, keep, answers)) && m.body.SetBlock?
    ensures Inv(t, Apply(t, s, AtA(m, keep, answers)), ds, sizes)
  {
    var p, after := PacketOf(m), Apply(t, s, AtA(m, keep, answers));
    var core := Core(s, multiset{p}, ds);
    CoreWith(t, s, m, ds, sizes);
    Network.InitiatorReacts(t, core, p, answers.setBlock, sizes);
    Network.InitiatorReplies(t, core, p, answers.setBlock, sizes);
    var replies := React(t.a, s.a.setBlock, p.from, p.msg, p.data, answers.setBlock).replies;
    assert Network.Inv(t, Core(after, multiset{}, ds), sizes);
    forall q | q in after.flight
      ensures GoodMessage(t, q, CleanHere(t, after, ds, sizes), ds, sizes)
    {
      if q in FromSet(replies) {
        MessagesOf(replies, q);
      } else {
        assert q in s.flight;
      }
    }
  }

  /** Whatever manager a message is for, the SETBLOCK manager is not touched by one that is not for it. */
  lemma OtherMessage(me: Address, st: Endpoint, m: Message, answers: Answers)
    requires !m.body.SetBlock?
    ensures var o := Dispatch(me, st, m, answers);
            && o.state.setBlock == st.setBlock
            && (forall q :: q in o.replies ==> !q.body.SetBlock?)
            && (forall c :: c in o.consulted ==> !c.AskWrite?)
  {
  }

  lemma OthersKeepA(t: Write, s: Net, m: Message, keep: bool, answers: Answers, ds: seq<Delivery>, sizes: Network.Sizes)
    requires Inv(t, s, ds, sizes) && Enabled(t, s, AtA(m, keep, answers)) && !m.body.SetBlock?
    ensures Inv(t, Apply(t, s, AtA(m, keep, answers)), ds, sizes)
  {
    OtherMessage(t.a, s.a, m, answers);
    assert Core(Apply(t, s, AtA(m, keep, answers)), multiset{}, ds) == Core(s, multiset{}, ds);
  }

  lemma OthersKeepB(t: Write, s: Net, m: Message, keep: bool, answers: Answers, ds: seq<Delivery>, sizes: Network.Sizes)
    requires Inv(t, s, ds, sizes) && Enabled(t, s, AtB(m, keep, answers)) && !m.body.SetBlock?
    ensures Inv(t, Apply(t, s, AtB(m, keep, answers)), ds, sizes)
  {
    OtherMessage(t.b, s.b, m, answers);
    assert Core(Apply(t, s, AtB(m, keep, answers)), multiset{}, ds) == Core(s, multiset{}, ds);
    StillAccounted(ds, [], s.handled, Handled(m, answers, Dispatch(t.b, s.b, m, answers).consulted));
    assert ds + [] == ds;
  }

  lemma AccountStays(d: Delivery, handled: seq<Handled>, x: Handled)
    requires HasAccount(d, handled) || IsAccount(d, x)
    ensures HasAccount(d, handled + [x])
  {
    if HasAccount(d, handled) {
      var k :| 0 <= k < |handled| && IsAccount(d, handled[k]);
      assert (handled + [x])[k] == handled[k];
    } else {
      assert (handled + [x])[|handled|] == x;
    }
  }

  lemma DeliveryStays(c: Consultation, ds: seq<Delivery>, more: seq<Delivery>)
    requires c.AskWrite? && (HasDelivery(c, ds) || HasDelivery(c, more))
    ensures HasDelivery(c, ds + more)
  {
    if HasDelivery(c, ds) {
      var x :| 0 <= x < |ds| && ds[x].from == c.from && ds[x].payload == c.payload;
      assert (ds + more)[x] == ds[x];
    } else {
      var x :| 0 <= x < |more| && more[x].from == c.from && more[x].payload == c.payload;
      assert (ds + more)[|ds| + x] == more[x];
    }
  }

  /** One more message handled, with the deliveries it makes. */
  lemma StillAccounted(ds: seq<Delivery>, more: seq<Delivery>, handled: seq<Handled>, x: Handled)
    requires Accounted(ds, handled) && (forall i :: 0 <= i < |more| ==> IsAccount(more[i], x)) && AllDelivered(x, more)
    ensures Accounted(ds + more, handled + [x])
  {
    forall i | 0 <= i < |ds + more|
      ensures HasAccount((ds + more)[i], handled + [x])
    {
      AccountStays((ds + more)[i], handled, x);
    }
    forall k | 0 <= k < |handled + [x]|
      ensures AllDelivered((handled + [x])[k], ds + more)
    {
      var y := if k < |handled| then handled[k] else x;
      forall c | c in y.asked && c.AskWrite?
        ensures HasDelivery(c, ds + more)
      {
        DeliveryStays(c, ds, more);
      }
    }
  }

  /** What a SETBLOCK message makes b's application be asked is what it delivers. */
  lemma AskedIsDelivered(me: Address, st: Endpoint, m: Message, answers: Answers)
    requires m.body.SetBlock? && Reaches(m, me)
    ensures var ds := React(me, st.setBlock, m.from, m.body.setMsg, m.data, answers.setBlock).deliveries;
            var x := Handled(m, answers, Dispatch(me, st, m, answers).consulted);
            (forall i :: 0 <= i < |ds| ==> IsAccount(ds[i], x)) && AllDelivered(x, ds)
  {
    var ds := React(me, st.setBlock, m.from, m.body.setMsg, m.data, answers.setBlock).deliveries;
    forall c | c in Dispatch(me, st, m, answers).consulted && c.AskWrite?
      ensures HasDelivery(c, ds)
    {
      assert ds[0].from == c.from && ds[0].payload == c.payload;
    }
  }

  /** The managers' side of a message that b handles. */
  lemma BCore(t: Write, s: Net, m: Message, answers: Answers, ds: seq<Delivery>, sizes: Network.Sizes)
    requires Inv(t, s, ds, sizes) && m in s.flight && Reaches(m, t.b) && m.body.SetBlock?
    ensures var r := React(t.b, s.b.setBlock, m.from, m.body.setMsg, m.data, answers.setBlock);
            var b := s.b.(setBlock := r.node);
            && Network.Inv(t, Core(s.(b := b), multiset{}, ds + r.deliveries), sizes)
            && Network.ResponderGood(t, Core(s, multiset{PacketOf(m)}, ds), r, sizes)
  {
    var p := PacketOf(m);
    var core := Core(s, multiset{p}, ds);
    CoreWith(t, s, m, ds, sizes);
    Network.ResponderKeeps(t, core, p, answers.setBlock, sizes);
    Network.ResponderStep(t, core, p, true, answers.setBlock, sizes);
  }

  lemma BKeeps(t: Write, s: Net, m: Message, keep: bool, answers: Answers, ds: seq<Delivery>, sizes: Network.Sizes)
    returns (more: seq<Delivery>)
    requires Inv(t, s, ds, sizes) && Enabled(t, s, AtB(m, keep, answers)) && m.body.SetBlock?
    ensures Inv(t, Apply(t, s, AtB(m, keep, answers)), more, sizes)
  {
    var after := Apply(t, s, AtB(m, keep, answers));
    var r := React(t.b, s.b.setBlock, m.from, m.body.setMsg, m.data, answers.setBlock);
    more := ds + r.deliveries;
    BCore(t, s, m, answers, ds, sizes);
    assert Core(after, multiset{}, more) == Core(s.(b := s.b.(setBlock := r.node)), multiset{}, more);
    var before, now := CleanHere(t, s, ds, sizes), CleanHere(t, after, more, sizes);
    forall q | q in after.flight
      ensures GoodMessage(t, q, now, more, sizes)
    {
      if q in FromSet(r.replies) {
        MessagesOf(r.replies, q);
      } else {
        GoodStays(t, q, before, now, ds, r.deliveries, sizes);
      }
    }
    AskedIsDelivered(t.b, s.b, m, answers);
    StillAccounted(ds, r.deliveries, s.handled, Handled(m, answers, Dispatch(t.b, s.b, m, answers).consulted));
  }

  lemma GoodStays(
      t: Write, q: Message, clean: bool, now: bool, ds: seq<Delivery>, more: seq<Delivery>, sizes: Network.Sizes)
    requires GoodMessage(t, q, clean, ds, sizes) && (clean ==> now)
    ensures GoodMessage(t, q, now, ds + more, sizes)
  {
    if q.body.SetBlock? {
      Network.MoreDeliveries(t, PacketOf(q), clean, now, ds, more, sizes);
    }
  }

  lemma BusKeeps(t: Write, s: Net, e: Event, ds: seq<Delivery>, sizes: Network.Sizes)
    requires Inv(t, s, ds, sizes) && Enabled(t, s, e) && (e.Drop? || e.Inject?)
    ensures Inv(t, Apply(t, s, e), ds, sizes)
  {
    assert Core(Apply(t, s, e), multiset{}, ds) == Core(s, multiset{}, ds);
    assert e.Inject? && e.m.body.SetBlock? ==> !Network.Relevant(t, PacketOf(e.m));
  }

  /** Every event keeps the invariant, for the deliveries made so far. */
  lemma StepKeeps(t: Write, s: Net, e: Event, ds: seq<Delivery>, sizes: Network.Sizes) returns (more: seq<Delivery>)
    requires Inv(t, s, ds, sizes) && Enabled(t, s, e)
    ensures Inv(t, Apply(t, s, e), more, sizes)
  {
    more := ds;
    match e {
      case Proceed(sendOk) => ProceedKeeps(t, s, sendOk, ds, sizes);
      case AtA(m, keep, answers) =>
        if m.body.SetBlock? {
          AKeeps(t, s, m, keep, answers, ds, sizes);
        } else {
          OthersKeepA(t, s, m, keep, answers, ds, sizes);
        }
      case AtB(m, keep, answers) =>
        if m.body.SetBlock? {
          more := BKeeps(t, s, m, keep, answers, ds, sizes);
        } else {
          OthersKeepB(t, s, m, keep, answers, ds, sizes);
        }
      case Drop(m) => BusKeeps(t, s, e, ds, sizes);
      case Inject(m) => BusKeeps(t, s, e, ds, sizes);
    }
  }

  lemma {:induction false} RunKeeps(t: Write, states: seq<Net>, events: seq<Event>, sizes: Network.Sizes, i: nat)
    returns (ds: seq<Delivery>)
    requires IsRun(t, states, events) && Inv(t, states[0], [], sizes) && i < |states|
    ensures Inv(t, states[i], ds, sizes)
  {
    if i == 0 {
      ds := [];
    } else {
      ds := RunKeeps(t, states, events, sizes, i - 1);
      assert Steps(t, states, events, i - 1);
      ds := StepKeeps(t, states[i - 1], events[i - 1], ds, sizes);
    }
  }

  // ---------- Main results ----------

  lemma StartInv(t: Write, s: Net, stale: set<Network.Mark>, sizes: Network.Sizes)
    requires Initial(t, s, stale)
    requires if sizes.Any? then Network.AllHarmless(stale) else stale == {} && sizes.n == NumBlocks(t.job.data)
    ensures Inv(t, s, [], sizes)
  {
    forall m | m in s.flight
      ensures GoodMessage(t, m, CleanHere(t, s, [], sizes), [], sizes)
    {
      if Relevant(t, m) {
        assert Network.Harmless(Network.MarkOf(PacketOf(m)));
      }
    }
  }

  /**
   * End-to-end safety between two nodes: a write that returns true has made b's application take exactly the
   * written data, filled up with zeros, in this transaction, unless b had no handler.
   */
  lemma WriteIsSafe(t: Write, states: seq<Net>, events: seq<Event>, stale: set<Network.Mark>, i: nat)
    requires IsRun(t, states, events) && Initial(t, states[0], stale) && Network.AllHarmless(stale) && i < |states|
    ensures states[i].pc == Returned(true) ==> Put(t, states[i].handled)
  {
    StartInv(t, states[0], stale, Network.Any);
    var ds := RunKeeps(t, states, events, Network.Any, i);
    if states[i].pc == Returned(true) {
      assert Network.Accepted(t, ds);
      var x :| 0 <= x < |ds| && ds[x] == Delivery(t.a, Padded(t.job.data), true);
      assert HasAccount(ds[x], states[i].handled);
      var k :| 0 <= k < |states[i].handled| && IsAccount(ds[x], states[i].handled[k]);
      assert Took(t, states[i].handled[k], Padded(t.job.data));
    }
  }

  /** From a quiet channel b's application is never asked to take anything else from a. */
  lemma QuietWriteAsks(t: Write, states: seq<Net>, events: seq<Event>, i: nat, k: nat, c: Consultation)
    requires IsRun(t, states, events) && Initial(t, states[0], {}) && i < |states|
    requires k < |states[i].handled| && c in states[i].handled[k].asked && c.AskWrite? && c.from == t.a
    ensures c.payload == Padded(t.job.data)
  {
    var sizes := Network.Only(NumBlocks(t.job.data));
    StartInv(t, states[0], {}, sizes);
    var ds := RunKeeps(t, states, events, sizes, i);
    assert HasDelivery(c, ds);
    var x :| 0 <= x < |ds| && ds[x].from == c.from && ds[x].payload == c.payload;
    Network.GoodDeliveryIsPadded(t, ds[x]);
  }
}
