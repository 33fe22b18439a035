/** Which left-over frames of an earlier transaction a read survives. */
module GetBlockStale {
  import opened CanTypes
  import opened Codec
  import opened Blocks
  import opened Sequences
  import opened GetBlockSpec
  import opened GetBlockNetwork
  import Outcome = GetBlockOutcome
  import Delivery = GetBlockDelivery

  /** The read has left a response in lastData that b really stored for a. */
  ghost predicate Honest(t: Read, s: Net) {
    Service(t.a, s.initiator.lastData) in s.served
  }

  /** Every read that starts amid left-over frames of these kinds, and is served one response only, is safe. */
  ghost predicate SafeDespite(stale: set<GetKind>) {
    forall t, states, events ::
      IsRun(t, states, events) && Initial(t, states[0], stale) && Last(states).pc == Returned(true)
          && OneResponse(t, Last(states).served)
      ==> Honest(t, Last(states))
  }

  /** A run kept together with its first state, so that it can be built event by event. */
  datatype Story = Story(states: seq<Net>, events: seq<Event>)

  ghost predicate Told(t: Read, story: Story, start: Net, now: Net) {
    IsRun(t, story.states, story.events) && story.states[0] == start && Last(story.states) == now
  }

  lemma Tell(t: Read, story: Story, start: Net, now: Net, e: Event) returns (longer: Story)
    requires Told(t, story, start, now) && Enabled(t, now, e)
    ensures Told(t, longer, start, Apply(t, now, e))
  {
    var next := Apply(t, now, e);
    longer := Story(story.states + [next], story.events + [e]);
    var n := |story.events|;
    assert longer.states[n] == now && longer.states[n + 1] == next && longer.events[n] == e;
    forall i | 0 <= i < n
      ensures Enabled(t, longer.states[i], longer.events[i])
      ensures longer.states[i + 1] == Apply(t, longer.states[i], longer.events[i])
    {
      assert longer.states[i] == story.states[i] && longer.states[i + 1] == story.states[i + 1];
      assert longer.events[i] == story.events[i];
    }
  }

  // ---------- One read ----------

  /** A response of 64 equal blocks. */
  function Uniform(b: Byte): (r: seq<Byte>)
    ensures |r| == 512
  {
    seq(512, i => b)
  }

  const OLD: Byte := 9
  const NEW: Byte := 5

  function Example(): Read {
    Read(Address(1), Address(2), Job(Address(2), [7]))
  }

  function StartState(sessions: map<Address, Session>, leftOver: seq<Packet>): Net {
    Net(Begin, Node(map[], CLEARED, []), Node(sessions, CLEARED, []), multiset(leftOver), [])
  }

  function SessionFor(response: seq<Byte>): Session
    requires |response| == 512
  {
    OpenSession(Address(1), 63, [7], response)
  }

  function TransferOf(response: seq<Byte>, i: nat): Packet
    requires |response| == 512 && i < 64
  {
    Reply(Address(2), Address(1), GetKind.Transfer, i, response[8 * i..8 * i + 8])
  }

  ghost predicate AllInFlight(s: Net, response: seq<Byte>)
    requires |response| == 512
  {
    forall i: nat :: i < 64 ==> TransferOf(response, i) in s.flight
  }

  /** The record at the start of the transfer phase. */
  function Nothing(): Pending {
    Delivery.Filled(Example().job, Uniform(OLD), 0)
  }

  /** The node with this session for the initiator. */
  function Storing(b: Node, session: Session): Node {
    b.(sessions := b.sessions[Address(1) := session])
  }

  lemma Opening(story: Story, start: Net, now: Net) returns (longer: Story, next: Net)
    requires Told(Example(), story, start, now)
    requires now.pc == Begin && now.initiator == Node(map[], CLEARED, [])
    ensures Told(Example(), longer, start, next)
    ensures next == now.(pc := AwaitAck, initiator := Node(map[], Claimed(Example().job), []),
                         flight := now.flight + multiset{RequestPacket(Address(1), Example().job)})
  {
    var t := Example();
    longer := Tell(t, story, start, now, Act(true));
    next := Apply(t, now, Act(true));
    assert next.flight == now.flight;
    longer := Tell(t, longer, start, next, Act(true));
    next := Apply(t, next, Act(true));
  }

  /** The responder stores a response and acknowledges. */
  lemma Granting(
      story: Story, start: Net, now: Net, response: seq<Byte>) returns (longer: Story, next: Net, ack: Packet)
    requires Told(Example(), story, start, now) && |response| == 512
    requires RequestPacket(Address(1), Example().job) in now.flight
    ensures Told(Example(), longer, start, next)
    ensures ack == Reply(Address(2), Address(1), GetKind.Ack, 63, [7])
    ensures next == now.(responder := Storing(now.responder, SessionFor(response)),
                         flight := now.flight + multiset{ack}, served := now.served + [Service(Address(1), response)])
  {
    var t := Example();
    var e := AtResponder(RequestPacket(Address(1), t.job), true, Provides(response));
    longer := Tell(t, story, start, now, e);
    next := Apply(t, now, e);
    ack := Reply(Address(2), Address(1), GetKind.Ack, 63, [7]);
  }

  /** An acknowledgement, whatever it answers, makes the reader ask for all blocks. */
  lemma Starting(story: Story, start: Net, now: Net, ack: Packet) returns (longer: Story, next: Net)
    requires Told(Example(), story, start, now)
    requires now.pc == AwaitAck && now.initiator == Node(map[], Claimed(Example().job), [])
    requires ack in now.flight && ack.from == Address(2) && ack.to == Address(1) && ack.msg.kind.Ack?
    ensures Told(Example(), longer, start, next)
    ensures next == now.(pc := AwaitTransfers, initiator := Node(map[], Nothing(), []),
                         flight := now.flight + multiset{StartPacket(Address(1), Example().job)})
  {
    var t := Example();
    longer := Tell(t, story, start, now, AtInitiator(ack, true, Declines));
    next := Apply(t, now, AtInitiator(ack, true, Declines));
    assert next.initiator == Node(map[], Outcome.Granted(Example().job), []) && next.flight == now.flight;
    longer := Tell(t, longer, start, next, Act(true));
    next := Apply(t, next, Act(true));
    assert Collecting(Outcome.Granted(Example().job)) == Nothing();
    assert next.pc == SendStart && next.flight == now.flight;
    longer := Tell(t, longer, start, next, Act(true));
    next := Apply(t, next, Act(true));
  }

  lemma EveryBlockIsSent(response: seq<Byte>, i: nat)
    requires |response| == 512 && i < 64
    ensures TransferOf(response, i) in Sent(response)
  {
    var blocks := SessionFor(response).blocks;
    SelectedExactly(Address(2), Address(1), blocks, ALL_BLOCKS, 64);
    assert Sends(Sent(response), Address(2), Address(1), blocks, ALL_BLOCKS, i);
    AllBlocksSelected(i);
  }

  /** What a start frame makes the responder send. */
  function Sent(response: seq<Byte>): seq<Packet>
    requires |response| == 512
  {
    Selected(Address(2), Address(1), SessionFor(response).blocks, ALL_BLOCKS, 64)
  }

  lemma SentIsInFlight(s: Net, response: seq<Byte>)
    requires |response| == 512 && multiset(Sent(response)) <= s.flight
    ensures AllInFlight(s, response)
  {
    forall i: nat | i < 64
      ensures TransferOf(response, i) in s.flight
    {
      EveryBlockIsSent(response, i);
      assert TransferOf(response, i) in multiset(Sent(response));
    }
  }

  /** A start frame, whenever it was sent, makes the responder send the response it holds. */
  lemma Sending(story: Story, start: Net, now: Net, response: seq<Byte>) returns (longer: Story, next: Net)
    requires Told(Example(), story, start, now) && |response| == 512
    requires Address(1) in now.responder.sessions && now.responder.sessions[Address(1)] == SessionFor(response)
    requires StartPacket(Address(1), Example().job) in now.flight
    ensures Told(Example(), longer, start, next)
    ensures next == now.(flight := next.flight) && now.flight <= next.flight && AllInFlight(next, response)
  {
    var t := Example();
    var e := AtResponder(StartPacket(Address(1), t.job), true, Declines);
    longer := Tell(t, story, start, now, e);
    next := Apply(t, now, e);
    assert now.served + [] == now.served;
    assert next.flight == now.flight + multiset(Sent(response));
    SentIsInFlight(next, response);
  }

  /** Transfers, whenever they were sent, make up the data. */
  lemma {:induction false} CollectSome(
      story: Story, start: Net, now: Net, response: seq<Byte>, i: nat) returns (longer: Story, next: Net)
    requires Told(Example(), story, start, now) && |response| == 512 && i <= 63
    requires now.initiator == Node(map[], Nothing(), []) && AllInFlight(now, response)
    ensures Told(Example(), longer, start, next)
    ensures next == now.(initiator := Node(map[], Delivery.Filled(Example().job, response, i), []))
  {
    if i == 0 {
      longer, next := story, now;
      assert Delivery.Filled(Example().job, response, 0) == Nothing();
    } else {
      longer, next := CollectSome(story, start, now, response, i - 1);
      var t := Example();
      var e := AtInitiator(TransferOf(response, i - 1), true, Declines);
      longer := Tell(t, longer, start, next, e);
      Delivery.FilledStep(Example().job, response, i - 1);
      var after := Apply(t, next, e);
      assert after.initiator == Node(map[], Delivery.Filled(Example().job, response, i), []);
      assert after.flight == now.flight;
      next := after;
    }
  }

  lemma Collect(story: Story, start: Net, now: Net, response: seq<Byte>) returns (longer: Story, next: Net)
    requires Told(Example(), story, start, now) && |response| == 512
    requires now.pc == AwaitTransfers
    requires now.initiator == Node(map[], Nothing(), []) && AllInFlight(now, response)
    ensures Told(Example(), longer, start, next)
    ensures next.pc == Returned(true) && next.initiator.lastData == response && next.served == now.served
  {
    var t := Example();
    longer, next := CollectSome(story, start, now, response, 63);
    var e := AtInitiator(TransferOf(response, 63), true, Declines);
    longer := Tell(t, longer, start, next, e);
    Delivery.FilledStep(Example().job, response, 63);
    next := Apply(t, next, e);
    assert next.initiator.lastData == response && next.initiator.pending.done && next.initiator.pending.ok;
    longer := Tell(t, longer, start, next, Act(true));
    next := Apply(t, next, Act(true));
  }

  lemma Different()
    ensures Uniform(OLD) != Uniform(NEW)
  {
    assert Uniform(OLD)[0] != Uniform(NEW)[0];
  }

  // ---------- Ways to be fooled ----------

  /** A late acknowledgement starts the transfer before the request is served; the old response is read. */
  lemma StaleAckFools()
    ensures !SafeDespite({GetKind.Ack})
  {
    var late := Reply(Address(2), Address(1), GetKind.Ack, 63, []);
    var start := StartState(map[Address(1) := SessionFor(Uniform(OLD))], [late]);
    var story, now := Opening(Story([start], []), start, start);
    story, now := Starting(story, start, now, late);
    story, now := Sending(story, start, now, Uniform(OLD));
    story, now := Collect(story, start, now, Uniform(OLD));
    assert Initial(Example(), start, {GetKind.Ack});
    assert !Honest(Example(), now);
  }

  /** Late transfers, or transfers that a late start frame caused, are taken for those of this read. */
  lemma LateTransfersFool(story: Story, start: Net, now: Net) returns (longer: Story, next: Net)
    requires Told(Example(), story, start, now)
    requires now.pc == Begin && now.initiator == Node(map[], CLEARED, []) && now.served == []
    requires AllInFlight(now, Uniform(OLD))
    ensures Told(Example(), longer, start, next)
    ensures next.pc == Returned(true) && OneResponse(Example(), next.served) && !Honest(Example(), next)
  {
    var ack;
    longer, next := Opening(story, start, now);
    longer, next, ack := Granting(longer, start, next, Uniform(NEW));
    longer, next := Starting(longer, start, next, ack);
    assert AllInFlight(next, Uniform(OLD));
    longer, next := Collect(longer, start, next, Uniform(OLD));
    Different();
    assert next.served == [Service(Address(1), Uniform(NEW))];
  }

  lemma StaleStartFools()
    ensures !SafeDespite({GetKind.Start})
  {
    var late := StartPacket(Address(1), Example().job);
    var start := StartState(map[Address(1) := SessionFor(Uniform(OLD))], [late]);
    var story, now := Sending(Story([start], []), start, start, Uniform(OLD));
    story, now := LateTransfersFool(story, start, now);
    assert Initial(Example(), start, {GetKind.Start});
  }

  lemma StaleTransferFools()
    ensures !SafeDespite({GetKind.Transfer})
  {
    var late := seq(64, i requires 0 <= i < 64 => TransferOf(Uniform(OLD), i));
    var start := StartState(map[], late);
    forall i: nat | i < 64
      ensures TransferOf(Uniform(OLD), i) in start.flight
    {
      assert late[i] == TransferOf(Uniform(OLD), i);
    }
    var story, now := LateTransfersFool(Story([start], []), start, start);
    assert Initial(Example(), start, {GetKind.Transfer});
  }

  lemma MoreStaleIsLessSafe(less: set<GetKind>, more: set<GetKind>)
    requires less <= more && SafeDespite(more)
    ensures SafeDespite(less)
  {
    forall t, states, events | IsRun(t, states, events) && Initial(t, states[0], less)
        && Last(states).pc == Returned(true) && OneResponse(t, Last(states).served)
      ensures Honest(t, Last(states))
    {
      assert Initial(t, states[0], more);
    }
  }

  /**
   * The exact condition. A read that is served one response is safe amid left-over frames if and only if
   * none of them is an acknowledgement, a start frame or a transfer between the two nodes.
   */
  lemma SafeExactlyDespite(stale: set<GetKind>)
    ensures SafeDespite(stale) <==> stale <= HARMLESS
  {
    if stale <= HARMLESS {
      forall t, states, events | IsRun(t, states, events) && Initial(t, states[0], stale)
          && Last(states).pc == Returned(true) && OneResponse(t, Last(states).served)
        ensures Honest(t, Last(states))
      {
        assert Initial(t, states[0], HARMLESS);
        ReadIsSafe(t, states, events, |states| - 1);
      }
    } else if SafeDespite(stale) {
      var k :| k in stale && k !in HARMLESS;
      MoreStaleIsLessSafe({k}, stale);
      match k {
        case Ack => StaleAckFools();
        case Start => StaleStartFools();
        case Transfer => StaleTransferFools();
        case _ =>
      }
    }
  }
}
