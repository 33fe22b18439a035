/**
 * A telecommand or telemetry request from one node to another over a bus that may lose, duplicate, delay and
 * reorder messages, while these and other nodes talk as they like.
 */
module RequestNetwork {
  import opened CanTypes
  import opened Codec
  import opened Sequences
  import opened ProtocolSpec
  import opened Outstanding
  import SetSpec = SetBlockSpec
  import GetSpec = GetBlockSpec

  /** Node a calls node b on a channel. A telecommand carries eight bytes, a telemetry request none. */
  datatype Order = Order(line: Line, a: Address, b: Address, channel: bv8, request: Buffer)

  /** b's application has executed this request for a node, or has given it this telemetry. */
  datatype Grant = Grant(to: Address, channel: bv8, content: Buffer)

  datatype Net = Net(caller: Caller, a: Endpoint, b: Endpoint, flight: multiset<Message>, grants: seq<Grant>)

  datatype Event =
    | Proceed(taken: bool)                          // the calling thread runs its next section
    | AtA(m: Message, keep: bool, answers: Answers) // a message reaches a; keep leaves a duplicate in flight
    | AtB(m: Message, keep: bool, answers: Answers) // a message reaches b
    | Drop(m: Message)
    | Inject(m: Message)                            // any other traffic

  function BodyOn(line: Line, kind: ReqAck, channel: bv8): Body {
    if line.TelecommandLine? then Tc(kind, channel) else Tm(kind, channel)
  }

  predicate IsOn(t: Order, m: Message, kind: ReqAck) {
    m.body == BodyOn(t.line, kind, t.channel)
  }

  function RequestMessage(t: Order): Message {
    Message(t.b, t.a, BodyOn(t.line, ReqAck.Req, t.channel), if t.line.TelecommandLine? then t.request else [])
  }

  predicate Reaches(m: Message, node: Address) {
    m.to == node || m.to == BROADCAST
  }

  /** Messages of this kind, on this line and channel, that one end of the call sends to the other. */
  predicate Relevant(t: Order, m: Message, kind: ReqAck) {
    && IsOn(t, m, kind)
    && if kind.Req? then m.from == t.a && Reaches(m, t.b) else m.from == t.b && Reaches(m, t.a)
  }

  /** Anything else: also other calls of a and b, on other channels or to other nodes. */
  predicate Foreign(t: Order, m: Message) {
    m.from != BROADCAST && forall kind :: !Relevant(t, m, kind)
  }

  function PendingOf(st: Endpoint, line: Line): PendingTcTm {
    if line.TelecommandLine? then st.tc else st.tm
  }

  function WithPending(st: Endpoint, line: Line, p: PendingTcTm): Endpoint {
    if line.TelecommandLine? then st.(tc := p) else st.(tm := p)
  }

  /** What b's application grants when it handles a message. */
  function Granted(line: Line, me: Address, m: Message, answers: Answers): seq<Grant> {
    if !Reaches(m, me) then []
    else match m.body
      case Tc(kind, channel) =>
        if line.TelecommandLine? && kind.Req? && answers.tc == TcVerdict(true)
        then [Grant(m.from, channel, InBuffer(m.data))] else []
      case Tm(kind, channel) =>
        if line.TelemetryLine? && kind.Req? && answers.tm.TmGiven?
        then [Grant(m.from, channel, answers.tm.data)] else []
      case _ => []
  }

  /** The caller and its slot as a system of one caller. */
  function AsSystem(t: Order, s: Net): System {
    System(PendingOf(s.a, t.line), s.a.telemetry, map[0 := s.caller], [], [])
  }

  /** The next section of the call. */
  function NextSection(t: Order, caller: Caller, taken: bool): Outstanding.Event
    requires !caller.Finished?
  {
    match caller
    case Idle => Call(0, t.b, t.channel)
    case Holding(_, _) => Send(0, taken)
    case Waiting(_, _) => Wake(0)
  }

  predicate Enabled(t: Order, s: Net, e: Event) {
    match e
    case Proceed(_) => !s.caller.Finished?
    case AtA(m, _, _) => m in s.flight && Reaches(m, t.a)
    case AtB(m, _, _) => m in s.flight && Reaches(m, t.b)
    case Drop(m) => m in s.flight
    case Inject(m) => Foreign(t, m)
  }

  function Left(flight: multiset<Message>, m: Message, keep: bool): multiset<Message> {
    if keep then flight else flight - multiset{m}
  }

  function Apply(t: Order, s: Net, e: Event): Net
    requires Enabled(t, s, e)
  {
    match e
    case Proceed(taken) =>
      var next := Outstanding.Apply(Port(t.a, t.line), AsSystem(t, s), NextSection(t, s.caller, taken));
      s.(caller := next.callers[0], a := WithPending(s.a, t.line, next.slot),
         flight := s.flight + if next.sent == [] then multiset{} else multiset{RequestMessage(t)})
    case AtA(m, keep, answers) =>
      var o := Dispatch(t.a, s.a, m, answers);
      s.(a := o.state, flight := Left(s.flight, m, keep) + multiset(o.replies))
    case AtB(m, keep, answers) =>
      var o := Dispatch(t.b, s.b, m, answers);
      s.(b := o.state, flight := Left(s.flight, m, keep) + multiset(o.replies),
         grants := s.grants + Granted(t.line, t.b, m, answers))
    case Drop(m) => s.(flight := s.flight - multiset{m})
    case Inject(m) => s.(flight := s.flight + multiset{m})
  }

  ghost predicate Steps(t: Order, states: seq<Net>, events: seq<Event>, i: nat)
    requires |states| == |events| + 1 && i < |events|
  {
    Enabled(t, states[i], events[i]) && states[i + 1] == Apply(t, states[i], events[i])
  }

  ghost predicate IsRun(t: Order, states: seq<Net>, events: seq<Event>) {
    |states| == |events| + 1 && forall i :: 0 <= i < |events| ==> Steps(t, states, events, i)
  }

  /**
   * A call is about to be made; the slot may even be taken. Messages of the given kinds, on this line and
   * channel, may be left over between the two nodes.
   */
  ghost predicate Initial(t: Order, s: Net, stale: set<ReqAck>) {
    && t.a != t.b && t.a != BROADCAST && t.b != BROADCAST
    && s.caller == Idle && s.grants == []
    && (forall m :: m in s.flight ==> m.from != BROADCAST)
    && (forall m, kind :: m in s.flight && Relevant(t, m, kind) ==> kind in stale)
  }

  /**
   * In this call b's application has executed exactly this telecommand for a, or has given a exactly the
   * eight bytes of telemetry that a has cached.
   */
  predicate Honest(t: Order, a: Endpoint, grants: seq<Grant>) {
    if t.line.TelecommandLine? then Grant(t.a, t.channel, t.request) in grants
    else |a.telemetry| == 8 && Grant(t.a, t.channel, a.telemetry) in grants
  }

  // ---------- Invariant ----------

  /** An acknowledgement with this payload speaks of a grant made in this call. */
  predicate GoodAck(t: Order, data: Payload, grants: seq<Grant>) {
    if t.line.TelecommandLine? then Grant(t.a, t.channel, t.request) in grants
    else |data| == 8 && Grant(t.a, t.channel, data) in grants
  }

  predicate GoodMessage(t: Order, m: Message, grants: seq<Grant>) {
    && m.from != BROADCAST
    && (t.line.TelecommandLine? && Relevant(t, m, ReqAck.Req) ==> InBuffer(m.data) == t.request)
    && (Relevant(t, m, ReqAck.Ack) ==> GoodAck(t, m.data, grants))
  }

  ghost predicate CallerInv(t: Order, caller: Caller, a: Endpoint, grants: seq<Grant>) {
    var p := PendingOf(a, t.line);
    && (Owns(caller) ==>
          && p.waiting && p.peer == t.b && p.channel == t.channel
          && (p.done && p.ok ==> Honest(t, a, grants)))
    && (caller == Finished(true) ==> !p.waiting && Honest(t, a, grants))
  }

  ghost predicate Inv(t: Order, s: Net) {
    && t.a != t.b && t.a != BROADCAST && t.b != BROADCAST
    && CallerInv(t, s.caller, s.a, s.grants)
    && forall m :: m in s.flight ==> GoodMessage(t, m, s.grants)
  }

  /** A node's reply goes to the sender, on the line and channel of its request, and says what the application said. */
  lemma ReplyShape(me: Address, st: Endpoint, m: Message, answers: Answers, x: nat)
    requires x < |Dispatch(me, st, m, answers).replies|
    ensures var q := Dispatch(me, st, m, answers).replies[x];
            && q.from == me && q.to == m.from && Reaches(m, me)
            && match q.body
               case Tc(kind, channel) =>
                 && m.body == Tc(ReqAck.Req, channel) && !kind.Req? && q.data == m.data
                 && (kind.Ack? <==> answers.tc == TcVerdict(true))
               case Tm(kind, channel) =>
                 && m.body == Tm(ReqAck.Req, channel) && !kind.Req?
                 && (kind.Ack? <==> answers.tm.TmGiven?) && (kind.Ack? ==> q.data == answers.tm.data)
               case _ => true
  {
    match m.body
    case SetBlock(msg) => SetSpec.ReactAnswersSender(me, st.setBlock, m.from, msg, m.data, answers.setBlock);
    case GetBlock(msg) => GetSpec.ReactAnswersSender(me, st.getBlock, m.from, msg, m.data, answers.getBlock);
    case _ =>
  }

  lemma GoodReplyOfB(t: Order, s: Net, m: Message, answers: Answers, x: nat)
    requires Inv(t, s) && m in s.flight && x < |Dispatch(t.b, s.b, m, answers).replies|
    ensures GoodMessage(t, Dispatch(t.b, s.b, m, answers).replies[x], s.grants + Granted(t.line, t.b, m, answers))
  {
    var q := Dispatch(t.b, s.b, m, answers).replies[x];
    ReplyShape(t.b, s.b, m, answers, x);
    assert GoodMessage(t, m, s.grants);
    if Relevant(t, q, ReqAck.Ack) {
      assert Relevant(t, m, ReqAck.Req);
      var more := Granted(t.line, t.b, m, answers);
      assert |more| == 1 && (s.grants + more)[|s.grants|] == more[0];
    }
  }

  lemma BKeeps(t: Order, s: Net, m: Message, keep: bool, answers: Answers)
    requires Inv(t, s) && Enabled(t, s, AtB(m, keep, answers))
    ensures Inv(t, Apply(t, s, AtB(m, keep, answers)))
  {
    var after := Apply(t, s, AtB(m, keep, answers));
    var replies := Dispatch(t.b, s.b, m, answers).replies;
    forall q | q in after.flight
      ensures GoodMessage(t, q, after.grants)
    {
      if q in replies {
        var x :| 0 <= x < |replies| && replies[x] == q;
        GoodReplyOfB(t, s, m, answers, x);
      } else {
        assert q in s.flight && GoodMessage(t, q, s.grants);
      }
    }
  }

  /** What a hears keeps its side: only an acknowledgement that speaks of a grant makes the slot say yes. */
  lemma CallerHears(t: Order, s: Net, m: Message, answers: Answers)
    requires Inv(t, s) && GoodMessage(t, m, s.grants)
    ensures CallerInv(t, s.caller, Dispatch(t.a, s.a, m, answers).state, s.grants)
  {
    DispatchHeeds(t.a, s.a, m, answers);
    var port, p := Port(t.a, t.line), PendingOf(s.a, t.line);
    if Hits(port, p, m) && Owns(s.caller) && ReplyIn(port, m).value.kind.Ack? {
      assert Relevant(t, m, ReqAck.Ack);
    }
  }

  lemma GoodReplyOfA(t: Order, s: Net, m: Message, answers: Answers, x: nat)
    requires Inv(t, s) && x < |Dispatch(t.a, s.a, m, answers).replies|
    ensures GoodMessage(t, Dispatch(t.a, s.a, m, answers).replies[x], s.grants)
  {
    ReplyShape(t.a, s.a, m, answers, x);
  }

  lemma AKeeps(t: Order, s: Net, m: Message, keep: bool, answers: Answers)
    requires Inv(t, s) && Enabled(t, s, AtA(m, keep, answers))
    ensures Inv(t, Apply(t, s, AtA(m, keep, answers)))
  {
    CallerHears(t, s, m, answers);
    var after := Apply(t, s, AtA(m, keep, answers));
    var replies := Dispatch(t.a, s.a, m, answers).replies;
    forall q | q in after.flight
      ensures GoodMessage(t, q, after.grants)
    {
      if q in replies {
        var x :| 0 <= x < |replies| && replies[x] == q;
        GoodReplyOfA(t, s, m, answers, x);
      } else {
        assert q in s.flight;
      }
    }
  }

  lemma SectionKeeps(t: Order, s: Net, taken: bool)
    requires Inv(t, s) && !s.caller.Finished?
    ensures Inv(t, Apply(t, s, Proceed(taken)))
  {
    assert InBuffer(t.request) == t.request;
    assert GoodMessage(t, RequestMessage(t), s.grants);
  }

  /** Every event keeps the invariant. */
  lemma StepKeeps(t: Order, s: Net, e: Event)
    requires Inv(t, s) && Enabled(t, s, e)
    ensures Inv(t, Apply(t, s, e))
  {
    match e
    case Proceed(taken) => SectionKeeps(t, s, taken);
    case AtA(m, keep, answers) => AKeeps(t, s, m, keep, answers);
    case AtB(m, keep, answers) => BKeeps(t, s, m, keep, answers);
    case Drop(m) =>
    case Inject(m) =>
      assert !Relevant(t, m, ReqAck.Req) && !Relevant(t, m, ReqAck.Ack);
  }

  lemma {:induction false} RunKeeps(t: Order, states: seq<Net>, events: seq<Event>, i: nat)
    requires IsRun(t, states, events) && Inv(t, states[0]) && i < |states|
    ensures Inv(t, states[i])
  {
    if i > 0 {
      RunKeeps(t, states, events, i - 1);
      assert Steps(t, states, events, i - 1);
      StepKeeps(t, states[i - 1], events[i - 1]);
    }
  }

  // ---------- Main results ----------

  /** Kinds of left-over messages that do no harm. A left-over telemetry request is as good as a new one. */
  predicate Harmless(line: Line, kind: ReqAck) {
    kind.Nack? || kind.Unassigned? || (kind.Req? && line.TelemetryLine?)
  }

  ghost predicate AllHarmless(line: Line, stale: set<ReqAck>) {
    forall kind :: kind in stale ==> Harmless(line, kind)
  }

  /**
   * End-to-end safety: a telecommand that returns true has been executed by the peer's application with this
   * channel and payload in this call, and a telemetry request that returns true has cached eight bytes that
   * the peer's application gave for this channel in this call.
   */
  lemma CallIsHonest(t: Order, states: seq<Net>, events: seq<Event>, stale: set<ReqAck>, i: nat)
    requires IsRun(t, states, events) && Initial(t, states[0], stale) && AllHarmless(t.line, stale) && i < |states|
    ensures states[i].caller == Finished(true) ==> Honest(t, states[i].a, states[i].grants)
  {
    assert Inv(t, states[0]) by {
      forall m | m in states[0].flight
        ensures GoodMessage(t, m, [])
      {
        assert !Relevant(t, m, ReqAck.Ack);
        assert t.line.TelecommandLine? ==> !Relevant(t, m, ReqAck.Req);
      }
    }
    RunKeeps(t, states, events, i);
  }

  /** Every call on this line that starts amid left-over messages of these kinds is honest. */
  ghost predicate SafeDespite(line: Line, stale: set<ReqAck>) {
    forall t: Order, states, events ::
      t.line == line && IsRun(t, states, events) && Initial(t, states[0], stale)
          && Last(states).caller == Finished(true)
      ==> Honest(t, Last(states).a, Last(states).grants)
  }

  lemma MoreStaleIsLessSafe(line: Line, less: set<ReqAck>, more: set<ReqAck>)
    requires less <= more && SafeDespite(line, more)
    ensures SafeDespite(line, less)
  {
    forall t: Order, states, events |
      t.line == line && IsRun(t, states, events) && Initial(t, states[0], less) && Last(states).caller == Finished(true)
      ensures Honest(t, Last(states).a, Last(states).grants)
    {
      assert Initial(t, states[0], more);
    }
  }

  // ---------- Two ways to be fooled ----------

  const FRESH := Endpoint(FREE, FREE, [], SetSpec.Node(map[], SetSpec.CLEARED),
      GetSpec.Node(map[], GetSpec.CLEARED, []))

  /** The application at b executes every telecommand. */
  const WILLING := Answers(TcVerdict(true), NoTmHandler, SetSpec.NoHandler, GetSpec.NoHandler)

  function Example(line: Line): Order {
    Order(line, Address(1), Address(2), 3, [5, 5, 5, 5, 5, 5, 5, 5])
  }

  function Start(leftOver: Message): Net {
    Net(Idle, FRESH, FRESH, multiset{leftOver}, [])
  }

  function OldRequest(): Message {
    Message(Address(2), Address(1), Tc(ReqAck.Req, 3), [9])
  }

  function AckOn(line: Line, data: Payload): Message {
    Message(Address(1), Address(2), BodyOn(line, ReqAck.Ack, 3), data)
  }

  /** A call that has sent its request, with an acknowledgement on the bus, returns true. */
  lemma AcknowledgedReturnsTrue(line: Line, start: Net, ack: Message) returns (states: seq<Net>, events: seq<Event>)
    requires start.caller == Idle && PendingOf(start.a, line) == FREE
    requires ack in start.flight && ack == AckOn(line, ack.data)
    ensures IsRun(Example(line), states, events) && states[0] == start
    ensures Last(states).caller == Finished(true) && Last(states).grants == start.grants
  {
    var t := Example(line);
    events := [Proceed(true), Proceed(true), AtA(ack, true, WILLING), Proceed(true)];
    var s1 := Apply(t, start, events[0]);
    var s2 := Apply(t, s1, events[1]);
    var s3 := Apply(t, s2, events[2]);
    DispatchHeeds(t.a, s2.a, ack, WILLING);
    states := [start, s1, s2, s3, Apply(t, s3, events[3])];
    forall i | 0 <= i < 4
      ensures Steps(t, states, events, i)
    {
    }
  }

  /** A late acknowledgement is taken for that of this call, whose request may be lost. */
  lemma StaleAckFools(line: Line)
    ensures !SafeDespite(line, {ReqAck.Ack})
  {
    var late := AckOn(line, []);
    var states, events := AcknowledgedReturnsTrue(line, Start(late), late);
    assert Initial(Example(line), states[0], {ReqAck.Ack});
  }

  /** A late telecommand is executed and acknowledged in place of the new one. */
  lemma StaleRequestFools()
    ensures !SafeDespite(TelecommandLine, {ReqAck.Req})
  {
    var t, late := Example(TelecommandLine), OldRequest();
    var start := Start(late);
    var e := AtB(late, true, WILLING);
    var next := Apply(t, start, e);
    var ack := AckOn(TelecommandLine, [9]);
    assert Dispatch(t.b, FRESH, late, WILLING).replies == [ack];
    assert next.grants == [Grant(t.a, 3, InBuffer([9]))] && InBuffer([9])[0] == 9;
    var states, events := AcknowledgedReturnsTrue(TelecommandLine, next, ack);
    PrependStep(t, start, e, states, events);
    assert Last([start] + states) == Last(states);
    assert Initial(t, start, {ReqAck.Req});
  }

  lemma PrependStep(t: Order, start: Net, e: Event, states: seq<Net>, events: seq<Event>)
    requires IsRun(t, states, events) && Enabled(t, start, e) && states[0] == Apply(t, start, e)
    ensures IsRun(t, [start] + states, [e] + events)
  {
    var longer, more := [start] + states, [e] + events;
    forall i | 0 <= i < |more|
      ensures Steps(t, longer, more, i)
    {
      if i > 0 {
        assert Steps(t, states, events, i - 1);
        assert longer[i] == states[i - 1] && longer[i + 1] == states[i] && more[i] == events[i - 1];
      }
    }
  }

  /**
   * The exact condition. Calls are safe amid left-over messages on their line and channel if and only if none
   * is an acknowledgement and, for telecommands, none is a request.
   */
  lemma SafeExactlyDespite(line: Line, stale: set<ReqAck>)
    ensures SafeDespite(line, stale) <==> AllHarmless(line, stale)
  {
    if AllHarmless(line, stale) {
      forall t: Order, states, events |
        t.line == line && IsRun(t, states, events) && Initial(t, states[0], stale)
            && Last(states).caller == Finished(true)
        ensures Honest(t, Last(states).a, Last(states).grants)
      {
        CallIsHonest(t, states, events, stale, |states| - 1);
      }
    } else if SafeDespite(line, stale) {
      var kind :| kind in stale && !Harmless(line, kind);
      MoreStaleIsLessSafe(line, {kind}, stale);
      if kind.Ack? {
        StaleAckFools(line);
      } else {
        StaleRequestFools();
      }
    }
  }
}
