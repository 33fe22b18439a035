/** Which left-over frames of an earlier transaction a write survives: exactly those that end-to-end safety allows. */
module SetBlockStale {
  import opened CanTypes
  import opened Codec
  import opened Blocks
  import opened Sequences
  import opened SetBlockSpec
  import opened SetBlockNetwork

  /** Every write that starts amid left-over frames with these marks is safe. */
  ghost predicate SafeDespite(stale: set<Mark>) {
    forall t, states, events ::
      IsRun(t, states, events) && Initial(t, states[0], stale) && Last(states).pc == Returned(true)
      ==> Accepted(t, Last(states).deliveries)
  }

  /** A run kept together with its first state, so that it can be built event by event. */
  datatype Story = Story(states: seq<Net>, events: seq<Event>)

  ghost predicate Told(t: Write, story: Story, start: Net, now: Net) {
    IsRun(t, story.states, story.events) && story.states[0] == start && Last(story.states) == now
  }

  lemma Tell(t: Write, story: Story, start: Net, now: Net, e: Event) returns (longer: Story)
    requires Told(t, story, start, now) && Enabled(t, now, e)
    ensures Told(t, longer, start, Apply(t, now, e))
  {
    var next := Apply(t, now, e);
    longer := Story(story.states + [next], story.events + [e]);
    var n := |story.events|;
    assert longer.states[n] == now && longer.states[n + 1] == next && longer.events[n] == e;
    forall i | 0 <= i < n
      ensures Enabled(t, longer.states[i], longer.events[i])
      ensures longer.states[i + 1] == Apply(t, longer.states[i], longer.events[i])
    {
      assert longer.states[i] == story.states[i] && longer.states[i + 1] == story.states[i + 1];
      assert longer.events[i] == story.events[i];
    }
  }

  // ---------- One small write and its left-overs ----------

  const OLD: Payload := [9]

  function Example(): Write {
    Write(Address(1), Address(2), Job(Address(2), [7], [5]))
  }

  function StartState(sessions: map<Address, Session>, leftOver: Packet): Net {
    Net(Begin, Node(map[], CLEARED), Node(sessions, CLEARED), multiset{leftOver}, [])
  }

  function OldSession(done: bool): Session {
    SessionRecord(Address(1), [7], 1, [OLD], true, done)
  }

  function Waiting(): Pending {
    CLEARED.(active := true, waitingRequestAck := true, peer := Address(2), numBlocks := 1)
  }

  function Acked(): Pending {
    Waiting().(requestAcked := true, waitingRequestAck := false)
  }

  /** The node with this session for the initiator. */
  function Storing(b: Node, session: Session): Node {
    b.(sessions := b.sessions[Address(1) := session])
  }

  lemma Opening(story: Story, start: Net, now: Net) returns (longer: Story, next: Net)
    requires Told(Example(), story, start, now) && now.pc == Begin && now.initiator == Node(map[], CLEARED)
    ensures Told(Example(), longer, start, next)
    ensures next == now.(pc := AwaitAck, initiator := Node(map[], Waiting()),
                         flight := now.flight + multiset{RequestPacket(Address(1), Example().job)})
  {
    var t := Example();
    longer := Tell(t, story, start, now, Act(true));
    next := Apply(t, now, Act(true));
    assert next.pc == SendRequest && next.initiator == Node(map[], Waiting()) && next.flight == now.flight;
    longer := Tell(t, longer, start, next, Act(true));
    next := Apply(t, next, Act(true));
  }

  /** An acknowledgement, whatever it answers, lets the writer send its block. */
  lemma Sending(story: Story, start: Net, now: Net, ack: Packet) returns (longer: Story, next: Net)
    requires Told(Example(), story, start, now)
    requires now.pc == AwaitAck && now.initiator == Node(map[], Waiting())
    requires ack in now.flight && ack.from == Address(2) && ack.to == Address(1) && ack.msg.kind.Ack?
    ensures Told(Example(), longer, start, next)
    ensures next == now.(pc := ArmReport, initiator := Node(map[], Acked()),
                          flight := now.flight + multiset{TransferPacket(Address(1), Example().job, 0)})
  {
    var t := Example();
    longer := Tell(t, story, start, now, AtInitiator(ack, true, NoHandler));
    next := Apply(t, now, AtInitiator(ack, true, NoHandler));
    assert next.initiator == Node(map[], Acked()) && next.flight == now.flight;
    longer := Tell(t, longer, start, next, Act(true));
    next := Apply(t, next, Act(true));
    assert next.pc == SendBlock(0) && next.flight == now.flight;
    longer := Tell(t, longer, start, next, Act(true));
    next := Apply(t, next, Act(true));
  }

  lemma Asking(story: Story, start: Net, now: Net) returns (longer: Story, next: Net)
    requires Told(Example(), story, start, now)
    requires now.pc == ArmReport && now.initiator == Node(map[], Acked())
    ensures Told(Example(), longer, start, next)
    ensures next == now.(pc := AwaitReport, initiator := Node(map[], Acked().(waitingReport := true)),
                          flight := now.flight + multiset{StatusPacket(Address(1), Example().job)})
  {
    var t := Example();
    longer := Tell(t, story, start, now, Act(true));
    next := Apply(t, now, Act(true));
    assert next.pc == SendStatus && next.flight == now.flight;
    longer := Tell(t, longer, start, next, Act(true));
    next := Apply(t, next, Act(true));
  }

  /** A full, finished report, whatever it reports on, makes the write succeed. */
  lemma Closing(story: Story, start: Net, now: Net, report: Packet) returns (longer: Story, next: Net)
    requires Told(Example(), story, start, now)
    requires now.pc == AwaitReport && now.initiator == Node(map[], Acked().(waitingReport := true))
    requires report in now.flight && report.from == Address(2) && report.to == Address(1)
    requires report.msg.kind.Report? && report.msg.done && AllBitsSet(report.data, 1)
    ensures Told(Example(), longer, start, next)
    ensures next.pc == Returned(true) && next.deliveries == now.deliveries
  {
    var t := Example();
    longer := Tell(t, story, start, now, AtInitiator(report, true, NoHandler));
    next := Apply(t, now, AtInitiator(report, true, NoHandler));
    longer := Tell(t, longer, start, next, Act(true));
    next := Apply(t, next, Act(true));
    assert next.pc == SendAbort(true);
    longer := Tell(t, longer, start, next, Act(true));
    next := Apply(t, next, Act(true));
  }

  /** The responder answers the request with an acknowledgement. */
  lemma Granting(story: Story, start: Net, now: Net) returns (longer: Story, next: Net, ack: Packet)
    requires Told(Example(), story, start, now)
    requires RequestPacket(Address(1), Example().job) in now.flight
    ensures Told(Example(), longer, start, next)
    ensures ack == Reply(Address(2), Address(1), SetKind.Ack, 0, [7])
    ensures next == now.(responder := Storing(now.responder, OpenSession(Address(1), 0, [7])),
                          flight := now.flight + multiset{ack})
  {
    var t := Example();
    var e := AtResponder(RequestPacket(Address(1), t.job), true, NoHandler);
    longer := Tell(t, story, start, now, e);
    next := Apply(t, now, e);
    ack := Reply(Address(2), Address(1), SetKind.Ack, 0, [7]);
    assert next.deliveries == now.deliveries;
  }

  lemma OldIsNotNew(t: Write)
    requires t == Example()
    ensures Padded(t.job.data) != OLD
  {
    assert |Padded(t.job.data)| == 8;
  }

  lemma OldAssembled(done: bool)
    ensures Assembled(OldSession(done)) == if done then [] else OLD
    ensures Settle(OldSession(done), NoHandler) == OldSession(true)
  {
    var blocks := OldSession(done).blocks;
    assert blocks[..0] == [];
    assert Flatten(blocks) == Flatten(blocks[..0]) + OLD;
    assert Flags(blocks) == [true];
  }

  /** The responder reports on a session holding one old block. */
  lemma Reporting(
      story: Story, start: Net, now: Net, ask: Packet, done: bool) returns (longer: Story, next: Net, report: Packet)
    requires Told(Example(), story, start, now)
    requires Address(1) in now.responder.sessions && now.responder.sessions[Address(1)] == OldSession(done)
    requires ask in now.flight && ask.from == Address(1) && ask.to == Address(2) && ask.msg.kind.StatusRequest?
    ensures Told(Example(), longer, start, next)
    ensures report == ReportPacket(Address(2), Address(1), OldSession(true))
    ensures report.msg.done && AllBitsSet(report.data, 1)
    ensures next == now.(responder := Storing(now.responder, OldSession(true)),
                          flight := now.flight + multiset{report},
                          deliveries := now.deliveries + if done then [] else [Delivery(Address(1), OLD, true)])
  {
    var t := Example();
    var e := AtResponder(ask, true, NoHandler);
    longer := Tell(t, story, start, now, e);
    next := Apply(t, now, e);
    var s := OldSession(done);
    OldAssembled(done);
    assert now.deliveries + [] == now.deliveries;
    assert next.responder.sessions == now.responder.sessions[Address(1) := OldSession(true)];
    report := ReportPacket(Address(2), Address(1), OldSession(true));
    ReportBits(Address(2), Address(1), OldSession(true));
  }

  /** A full old session at the responder is accepted in place of the new block. */
  lemma FinishingOnOld(story: Story, start: Net, now: Net) returns (longer: Story, next: Net)
    requires Told(Example(), story, start, now)
    requires now.pc == ArmReport && now.initiator == Node(map[], Acked()) && now.deliveries == []
    requires Address(1) in now.responder.sessions && now.responder.sessions[Address(1)] == OldSession(false)
    ensures Told(Example(), longer, start, next)
    ensures next.pc == Returned(true) && !Accepted(Example(), next.deliveries)
  {
    var report;
    longer, next := Asking(story, start, now);
    longer, next, report := Reporting(longer, start, next, StatusPacket(Address(1), Example().job), false);
    longer, next := Closing(longer, start, next, report);
    OldIsNotNew(Example());
    assert next.deliveries == [Delivery(Address(1), OLD, true)];
  }

  // ---------- Four ways to be fooled ----------

  /** A late report of the previous write is taken for the report of this one; nothing was delivered. */
  lemma StaleReportFools()
    ensures !SafeDespite({Mark(SetKind.Report, true)})
  {
    ReportBits(Address(2), Address(1), OldSession(true));
    var late := ReportPacket(Address(2), Address(1), OldSession(true));
    var start := StartState(map[], late);
    var story, now := WritingOn(Story([start], []), start, start, late);
    story, now := Closing(story, start, now, late);
    assert Initial(Example(), start, {Mark(SetKind.Report, true)});
    assert Told(Example(), story, start, now);
  }

  /** A late acknowledgement starts the transfer before the request is served; the old session is reported on. */
  lemma StaleAckFools(done: bool)
    ensures !SafeDespite({Mark(SetKind.Ack, done)})
  {
    var late := Packet(Address(1), Address(2), SetMsg(SetKind.Ack, 0, done), []);
    var start := StartState(map[Address(1) := OldSession(false)], late);
    var story, now := Opening(Story([start], []), start, start);
    story, now := Sending(story, start, now, late);
    story, now := FinishingOnOld(story, start, now);
    assert Initial(Example(), start, {Mark(SetKind.Ack, done)});
  }

  lemma Overwriting(story: Story, start: Net, now: Net, late: Packet) returns (longer: Story, next: Net)
    requires Told(Example(), story, start, now)
    requires late in now.flight
        && late == Packet(Address(2), Address(1), SetMsg(SetKind.Transfer, 0, late.msg.done), OLD)
    requires Address(1) in now.responder.sessions
        && now.responder.sessions[Address(1)] == OpenSession(Address(1), 0, [7])
    ensures Told(Example(), longer, start, next)
    ensures next == now.(responder := next.responder, flight := next.flight) && now.flight <= next.flight
    ensures Address(1) in next.responder.sessions && next.responder.sessions[Address(1)] == OldSession(false)
  {
    var e := AtResponder(late, true, NoHandler);
    longer := Tell(Example(), story, start, now, e);
    next := Apply(Example(), now, e);
    assert Store(OpenSession(Address(1), 0, [7]), 0, OLD).blocks == [OLD];
    assert now.deliveries + [] == now.deliveries;
  }

  /** A late block replaces the new one. */
  lemma StaleTransferFools(done: bool)
    ensures !SafeDespite({Mark(SetKind.Transfer, done)})
  {
    var late := Packet(Address(2), Address(1), SetMsg(SetKind.Transfer, 0, done), OLD);
    var start := StartState(map[], late);
    var story, now := Opening(Story([start], []), start, start);
    var ack;
    story, now, ack := Granting(story, start, now);
    story, now := Sending(story, start, now, ack);
    story, now := Overwriting(story, start, now, late);
    story, now := FinishingOnOld(story, start, now);
    assert Initial(Example(), start, {Mark(SetKind.Transfer, done)});
  }

  /** A write from its begin to its status request, while an old report is on the bus. */
  lemma WritingOn(story: Story, start: Net, now: Net, report: Packet) returns (longer: Story, next: Net)
    requires Told(Example(), story, start, now) && now.pc == Begin && now.initiator == Node(map[], CLEARED)
    requires report in now.flight
    ensures Told(Example(), longer, start, next) && report in next.flight && next.deliveries == now.deliveries
    ensures next.pc == AwaitReport && next.initiator == Node(map[], Acked().(waitingReport := true))
  {
    var ack;
    longer, next := Opening(story, start, now);
    longer, next, ack := Granting(longer, start, next);
    longer, next := Sending(longer, start, next, ack);
    longer, next := Asking(longer, start, next);
  }

  /** A late status request makes the responder report on the old, finished session. */
  lemma StaleStatusRequestFools(done: bool)
    ensures !SafeDespite({Mark(SetKind.StatusRequest, done)})
  {
    var late := Packet(Address(2), Address(1), SetMsg(SetKind.StatusRequest, 0, done), []);
    var start := StartState(map[Address(1) := OldSession(true)], late);
    var story, now := Story([start], []), start;
    var report;
    story, now, report := Reporting(story, start, now, late, true);
    story, now := WritingOn(story, start, now, report);
    story, now := Closing(story, start, now, report);
    assert Initial(Example(), start, {Mark(SetKind.StatusRequest, done)});
    assert now.deliveries == [];
  }

  lemma MoreStaleIsLessSafe(less: set<Mark>, more: set<Mark>)
    requires less <= more && SafeDespite(more)
    ensures SafeDespite(less)
  {
    forall t, states, events | IsRun(t, states, events) && Initial(t, states[0], less)
        && Last(states).pc == Returned(true)
      ensures Accepted(t, Last(states).deliveries)
    {
      assert Initial(t, states[0], more);
    }
  }

  /**
   * The exact condition. A write is safe amid left-over frames if and only if none of them is a transfer, an
   * acknowledgement, a status request or a report with the done flag between the two nodes.
   */
  lemma SafeExactlyDespite(stale: set<Mark>)
    ensures SafeDespite(stale) <==> AllHarmless(stale)
  {
    if AllHarmless(stale) {
      forall t, states, events | IsRun(t, states, events) && Initial(t, states[0], stale)
          && Last(states).pc == Returned(true)
        ensures Accepted(t, Last(states).deliveries)
      {
        WriteIsSafe(t, states, events, stale, |states| - 1);
      }
    } else if SafeDespite(stale) {
      var m :| m in stale && !Harmless(m);
      MoreStaleIsLessSafe({m}, stale);
      match m.kind {
        case Transfer => StaleTransferFools(m.done);
        case Ack => StaleAckFools(m.done);
        case StatusRequest => StaleStatusRequestFools(m.done);
        case Report => StaleReportFools();
        case _ =>
      }
    }
  }
}
