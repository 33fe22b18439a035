/**
 * A block read between two whole nodes that exchange messages over a lossy bus: what the read network proves of
 * the managers, carried to what the nodes send, what the application gives and what the reader keeps.
 */
module EndpointReads {
  import opened CanTypes
  import opened Codec
  import opened Blocks
  import opened Sequences
  import opened GetBlockSpec
  import opened ProtocolSpec
  import Network = GetBlockNetwork

  type Read = Network.Read

  /** A message that b has handled, with the application's answers. */
  datatype Handled = Handled(m: Message, answers: Answers)

  datatype Net = Net(pc: Pc, a: Endpoint, b: Endpoint, flight: multiset<Message>, handled: seq<Handled>)

  datatype Event =
    | Proceed(sendOk: bool)                         // the reading thread runs its next section
    | AtA(m: Message, keep: bool, answers: Answers) // a message reaches a; keep leaves a duplicate in flight
    | AtB(m: Message, keep: bool, answers: Answers) // a message reaches b
    | Drop(m: Message)
    | Inject(m: Message)                            // any other traffic

  predicate Reaches(m: Message, node: Address) {
    m.to == node || m.to == BROADCAST
  }

  function PacketOf(m: Message): Packet
    requires m.body.GetBlock?
  {
    Packet(m.to, m.from, m.body.getMsg, m.data)
  }

  /** GETBLOCK messages that the two ends of the read act on for each other. */
  predicate Relevant(t: Read, m: Message) {
    m.body.GetBlock? && Network.Relevant(t, PacketOf(m))
  }

  /** Anything else: other nodes, other protocols, other transactions of a and b. */
  predicate Foreign(t: Read, m: Message) {
    m.body.GetBlock? ==> m.from != BROADCAST && !Relevant(t, m)
  }

  predicate Enabled(t: Read, s: Net, e: Event) {
    match e
    case Proceed(_) => true
    case AtA(m, _, _) => m in s.flight && Reaches(m, t.a)
    case AtB(m, _, _) => m in s.flight && Reaches(m, t.b)
    case Drop(m) => m in s.flight
    case Inject(m) => Foreign(t, m)
  }

  function Left(flight: multiset<Message>, m: Message, keep: bool): multiset<Message> {
    if keep then flight else flight - multiset{m}
  }

  function Apply(t: Read, s: Net, e: Event): Net
    requires Enabled(t, s, e)
  {
    match e
    case Proceed(sendOk) =>
      var move := Advance(t.a, t.job, s.pc, s.a.getBlock.pending, sendOk);
      s.(pc := move.pc, a := s.a.(getBlock := s.a.getBlock.(pending := move.pending)),
         flight := s.flight + multiset(FromGet(move.sent)))
    case AtA(m, keep, answers) =>
      var o := Dispatch(t.a, s.a, m, answers);
      s.(a := o.state, flight := Left(s.flight, m, keep) + multiset(o.replies))
    case AtB(m, keep, answers) =>
      var o := Dispatch(t.b, s.b, m, answers);
      s.(b := o.state, flight := Left(s.flight, m, keep) + multiset(o.replies),
         handled := s.handled + [Handled(m, answers)])
    case Drop(m) => s.(flight := s.flight - multiset{m})
    case Inject(m) => s.(flight := s.flight + multiset{m})
  }

  ghost predicate Steps(t: Read, states: seq<Net>, events: seq<Event>, i: nat)
    requires |states| == |events| + 1 && i < |events|
  {
    Enabled(t, states[i], events[i]) && states[i + 1] == Apply(t, states[i], events[i])
  }

  ghost predicate IsRun(t: Read, states: seq<Net>, events: seq<Event>) {
    |states| == |events| + 1 && forall i :: 0 <= i < |events| ==> Steps(t, states, events, i)
  }

  /**
   * A read is about to start. The nodes may be in any state otherwise, b may hold any old session and a any old
   * data, and frames of the given kinds may still be in flight between the two nodes.
   */
  ghost predicate Initial(t: Read, s: Net, stale: set<GetKind>) {
    && t.a != t.b && t.a != BROADCAST && t.b != BROADCAST && t.job.to == t.b
    && s.pc == Begin && s.a.getBlock.pending == CLEARED && s.handled == []
    && (forall m :: m in s.flight && m.body.GetBlock? ==> m.from != BROADCAST)
    && (forall m :: m in s.flight && Relevant(t, m) ==> PacketOf(m).msg.kind in stale)
  }

  /** b's application gave this response, of usable size, when a request of a was handled. */
  predicate Gave(t: Read, x: Handled, response: seq<Byte>) {
    && x.m.from == t.a && x.m.body.GetBlock? && x.m.body.getMsg.kind.Request?
    && x.answers.getBlock == Provides(response) && |response| <= 512
  }

  ghost predicate Given(t: Read, handled: seq<Handled>, response: seq<Byte>) {
    exists k :: 0 <= k < |handled| && Gave(t, handled[k], response)
  }

  /** The responses b's application gave for a. */
  ghost function AllGiven(t: Read, handled: seq<Handled>): iset<seq<Byte>> {
    iset response | Given(t, handled, response)
  }

  // ---------- The managers inside the nodes ----------

  function Core(s: Net, flight: multiset<Packet>): Network.Net {
    Network.Net(s.pc, s.a.getBlock, s.b.getBlock, flight, [])
  }

  ghost predicate GoodMessage(t: Read, m: Message, clean: bool, R: iset<seq<Byte>>) {
    m.body.GetBlock? ==> Network.GoodPacket(t, PacketOf(m), clean, R)
  }

  ghost predicate CleanHere(t: Read, s: Net, R: iset<seq<Byte>>) {
    Network.Clean(t, s.b.getBlock, R)
  }

  ghost predicate Inv(t: Read, s: Net, R: iset<seq<Byte>>) {
    && Network.Inv(t, Core(s, multiset{}), R)
    && forall m :: m in s.flight ==> GoodMessage(t, m, CleanHere(t, s, R), R)
  }

  lemma CoreWith(t: Read, s: Net, m: Message, R: iset<seq<Byte>>)
    requires Inv(t, s, R) && m in s.flight && m.body.GetBlock?
    ensures Network.Inv(t, Core(s, multiset{PacketOf(m)}), R)
  {
    assert GoodMessage(t, m, CleanHere(t, s, R), R);
  }

  lemma MessagesOf(ps: seq<Packet>, m: Message)
    requires m in FromGet(ps)
    ensures m.body.GetBlock? && PacketOf(m) in ps
  {
    var x :| 0 <= x < |ps| && FromGet(ps)[x] == m;
    assert PacketOf(m) == ps[x];
  }

  lemma ProceedKeeps(t: Read, s: Net, sendOk: bool, R: iset<seq<Byte>>)
    requires Inv(t, s, R)
    ensures Inv(t, Apply(t, s, Proceed(sendOk)), R)
  {
    var core, after := Core(s, multiset{}), Apply(t, s, Proceed(sendOk));
    var sent := Advance(t.a, t.job, s.pc, s.a.getBlock.pending, sendOk).sent;
    Network.ActStep(t, core, sendOk, R);
    assert Network.Inv(t, Core(after, multiset{}), R);
    forall m | m in after.flight
      ensures GoodMessage(t, m, CleanHere(t, after, R), R)
    {
      if m in FromGet(sent) {
        MessagesOf(sent, m);
        assert PacketOf(m) in Network.Apply(t, core, Network.Act(sendOk)).flight;
      } else {
        assert m in s.flight;
      }
    }
  }

  /** A message that is not for the GETBLOCK manager does not touch it. */
  lemma OtherMessage(me: Address, st: Endpoint, m: Message, answers: Answers)
    requires !m.body.GetBlock?
    ensures Dispatch(me, st, m, answers).state.getBlock == st.getBlock
    ensures forall q :: q in Dispatch(me, st, m, answers).replies ==> !q.body.GetBlock?
  {
  }

  lemma OthersKeep(t: Read, s: Net, e: Event, R: iset<seq<Byte>>)
    requires Inv(t, s, R) && Enabled(t, s, e) && (e.AtA? || e.AtB?) && !e.m.body.GetBlock?
    ensures Inv(t, Apply(t, s, e), R)
  {
    OtherMessage(if e.AtA? then t.a else t.b, if e.AtA? then s.a else s.b, e.m, e.answers);
    assert Core(Apply(t, s, e), multiset{}) == Core(s, multiset{});
  }

  lemma ACore(t: Read, s: Net, m: Message, answers: Answers, R: iset<seq<Byte>>)
    requires Inv(t, s, R) && m in s.flight && Reaches(m, t.a) && m.body.GetBlock?
    ensures var r := React(t.a, s.a.getBlock, m.from, m.body.getMsg, m.data, answers.getBlock);
            && Network.Inv(t, Core(s.(a := s.a.(getBlock := r.node)), multiset{}), R)
            && forall q :: q in r.replies ==> Network.GoodPacket(t, q, CleanHere(t, s, R), R)
  {
    var p := PacketOf(m);
    var core := Core(s, multiset{p});
    CoreWith(t, s, m, R);
    Network.InitiatorStep(t, core, p, true, answers.getBlock, R);
    var r := React(t.a, s.a.getBlock, m.from, m.body.getMsg, m.data, answers.getBlock);
    var next := Network.Apply(t, core, Network.AtInitiator(p, true, answers.getBlock));
    forall q | q in r.replies
      ensures Network.GoodPacket(t, q, CleanHere(t, s, R), R)
    {
      assert q in next.flight;
    }
  }

  lemma AKeeps(t: Read, s: Net, m: Message, keep: bool, answers: Answers, R: iset<seq<Byte>>)
    requires Inv(t, s, R) && Enabled(t, s, AtA(m, keep, answers)) && m.body.GetBlock?
    ensures Inv(t, Apply(t, s, AtA(m, keep, answers)), R)
  {
    ACore(t, s, m, answers, R);
    var after := Apply(t, s, AtA(m, keep, answers));
    var r := React(t.a, s.a.getBlock, m.from, m.body.getMsg, m.data, answers.getBlock);
    assert Core(after, multiset{}) == Core(s.(a := s.a.(getBlock := r.node)), multiset{});
    forall q | q in after.flight
      ensures GoodMessage(t, q, CleanHere(t, after, R), R)
    {
      if q in FromGet(r.replies) {
        MessagesOf(r.replies, q);
      } else {
        assert q in s.flight;
      }
    }
  }

  /** What b stores for a is a response its application gave when this message was handled. */
  lemma StoredIsGiven(t: Read, b: Node, m: Message, answers: Answers, R: iset<seq<Byte>>)
    requires m.body.GetBlock? && (forall r :: Gave(t, Handled(m, answers), r) ==> r in R)
    ensures Network.OnlyServes(t, React(t.b, b, m.from, m.body.getMsg, m.data, answers.getBlock).served, R)
  {
    if m.body.getMsg.kind.Request? && Usable(m.body.getMsg.low6, m.data, answers.getBlock) && m.from == t.a {
      assert Gave(t, Handled(m, answers), answers.getBlock.response);
    }
  }

  lemma BCore(t: Read, s: Net, m: Message, answers: Answers, R: iset<seq<Byte>>)
    requires Inv(t, s, R) && m in s.flight && Reaches(m, t.b) && m.body.GetBlock?
    requires forall r :: Gave(t, Handled(m, answers), r) ==> r in R
    ensures var r := React(t.b, s.b.getBlock, m.from, m.body.getMsg, m.data, answers.getBlock);
            && Network.Inv(t, Core(s.(b := s.b.(getBlock := r.node)), multiset{}), R)
            && Network.ResponderGood(t, Core(s, multiset{PacketOf(m)}), r, R)
  {
    var p := PacketOf(m);
    var core := Core(s, multiset{p});
    CoreWith(t, s, m, R);
    StoredIsGiven(t, s.b.getBlock, m, answers, R);
    Network.ResponderKeeps(t, core, p, answers.getBlock, R);
    Network.ResponderStep(t, core, p, true, answers.getBlock, R);
  }

  lemma BKeeps(t: Read, s: Net, m: Message, keep: bool, answers: Answers, R: iset<seq<Byte>>)
    requires Inv(t, s, R) && Enabled(t, s, AtB(m, keep, answers)) && m.body.GetBlock?
    requires forall r :: Gave(t, Handled(m, answers), r) ==> r in R
    ensures Inv(t, Apply(t, s, AtB(m, keep, answers)), R)
  {
    BCore(t, s, m, answers, R);
    var after := Apply(t, s, AtB(m, keep, answers));
    var r := React(t.b, s.b.getBlock, m.from, m.body.getMsg, m.data, answers.getBlock);
    assert Core(after, multiset{}) == Core(s.(b := s.b.(getBlock := r.node)), multiset{});
    forall q | q in after.flight
      ensures GoodMessage(t, q, CleanHere(t, after, R), R)
    {
      if q in FromGet(r.replies) {
        MessagesOf(r.replies, q);
      } else {
        assert q in s.flight && GoodMessage(t, q, CleanHere(t, s, R), R);
      }
    }
  }

  lemma BusKeeps(t: Read, s: Net, e: Event, R: iset<seq<Byte>>)
    requires Inv(t, s, R) && Enabled(t, s, e) && (e.Drop? || e.Inject?)
    ensures Inv(t, Apply(t, s, e), R)
  {
    assert Core(Apply(t, s, e), multiset{}) == Core(s, multiset{});
    assert e.Inject? && e.m.body.GetBlock? ==> !Network.Relevant(t, PacketOf(e.m));
  }

  /** Every event keeps the invariant, as long as b's application gives a responses from R. */
  lemma StepKeeps(t: Read, s: Net, e: Event, R: iset<seq<Byte>>)
    requires Inv(t, s, R) && Enabled(t, s, e)
    requires e.AtB? ==> forall r :: Gave(t, Handled(e.m, e.answers), r) ==> r in R
    ensures Inv(t, Apply(t, s, e), R)
  {
    match e
    case Proceed(sendOk) => ProceedKeeps(t, s, sendOk, R);
    case AtA(m, keep, answers) =>
      if m.body.GetBlock? {
        AKeeps(t, s, m, keep, answers, R);
      } else {
        OthersKeep(t, s, e, R);
      }
    case AtB(m, keep, answers) =>
      if m.body.GetBlock? {
        BKeeps(t, s, m, keep, answers, R);
      } else {
        OthersKeep(t, s, e, R);
      }
    case Drop(m) => BusKeeps(t, s, e, R);
    case Inject(m) => BusKeeps(t, s, e, R);
  }

  lemma {:induction false} HandledGrows(t: Read, states: seq<Net>, events: seq<Event>, i: nat, j: nat)
    requires IsRun(t, states, events) && i <= j < |states|
    ensures states[i].handled <= states[j].handled
  {
    if i < j {
      HandledGrows(t, states, events, i, j - 1);
      assert Steps(t, states, events, j - 1);
    }
  }

  lemma LastHandled(t: Read, states: seq<Net>, events: seq<Event>, i: nat, j: nat, response: seq<Byte>)
    requires IsRun(t, states, events) && i < j < |states| && events[i].AtB?
    requires Gave(t, Handled(events[i].m, events[i].answers), response)
    ensures response in AllGiven(t, states[j].handled)
  {
    assert Steps(t, states, events, i);
    HandledGrows(t, states, events, i + 1, j);
    var k := |states[i].handled|;
    assert states[i + 1].handled[k] == Handled(events[i].m, events[i].answers);
    assert states[j].handled[k] == states[i + 1].handled[k];
    assert Given(t, states[j].handled, response);
  }

  lemma StepAlong(t: Read, states: seq<Net>, events: seq<Event>, i: nat, j: nat)
    requires IsRun(t, states, events) && i < j < |states| && Inv(t, states[i], AllGiven(t, states[j].handled))
    ensures Inv(t, states[i + 1], AllGiven(t, states[j].handled))
  {
    var R, e := AllGiven(t, states[j].handled), events[i];
    forall r | e.AtB? && Gave(t, Handled(e.m, e.answers), r)
      ensures r in R
    {
      LastHandled(t, states, events, i, j, r);
    }
    assert Steps(t, states, events, i);
    StepKeeps(t, states[i], e, R);
  }

  lemma {:induction false} RunKeeps(t: Read, states: seq<Net>, events: seq<Event>, i: nat, j: nat)
    requires IsRun(t, states, events) && i <= j < |states| && Inv(t, states[0], AllGiven(t, states[j].handled))
    ensures Inv(t, states[i], AllGiven(t, states[j].handled))
  {
    if i > 0 {
      RunKeeps(t, states, events, i - 1, j);
      StepAlong(t, states, events, i - 1, j);
    }
  }

  // ---------- Main results ----------

  /**
   * End-to-end safety between two nodes, for any application: a read that returns true has left 512 bytes at a,
   * and each of their blocks is that block of a response which b's application gave for a in this transaction.
   */
  lemma ReadIsPieced(t: Read, states: seq<Net>, events: seq<Event>, i: nat)
    requires IsRun(t, states, events) && Initial(t, states[0], Network.HARMLESS) && i < |states|
    ensures states[i].pc == Returned(true) ==>
              Network.Pieced(states[i].a.getBlock.lastData, AllGiven(t, states[i].handled))
  {
    var R := AllGiven(t, states[i].handled);
    forall m | m in states[0].flight
      ensures GoodMessage(t, m, CleanHere(t, states[0], R), R)
    {
      assert m.body.GetBlock? && Relevant(t, m) ==> PacketOf(m).msg.kind in Network.HARMLESS;
    }
    assert Inv(t, states[0], R);
    RunKeeps(t, states, events, i, i);
  }

  /** If b's application gave one response for a, a read that returns true has left exactly that one at a. */
  lemma ReadIsSafe(t: Read, states: seq<Net>, events: seq<Event>, i: nat, response: seq<Byte>)
    requires IsRun(t, states, events) && Initial(t, states[0], Network.HARMLESS) && i < |states|
    requires forall r :: Given(t, states[i].handled, r) ==> r == response
    ensures states[i].pc == Returned(true) ==>
              |response| == 512 && states[i].a.getBlock.lastData == response && Given(t, states[i].handled, response)
  {
    if states[i].pc == Returned(true) {
      var data, R := states[i].a.getBlock.lastData, AllGiven(t, states[i].handled);
      ReadIsPieced(t, states, events, i);
      assert Network.Known(R, 0, data[8 * 0..8 * 0 + 8]);
      assert response in R && |response| <= 512;
      Network.PiecedFromOne(data, R, response);
    }
  }
}
