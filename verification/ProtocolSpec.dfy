/**
 * One CAN-TS node as a function of the messages it receives: routing, telecommands, telemetry and the block
 * managers.
 */
module ProtocolSpec {
  import opened CanTypes
  import opened Codec
  import SetSpec = SetBlockSpec
  import GetSpec = GetBlockSpec

  // ---------- Messages ----------

  datatype Body =
    | TimeSync
    | Unsolicited
    | Tc(kind: ReqAck, channel: bv8)
    | Tm(kind: ReqAck, channel: bv8)
    | SetBlock(setMsg: SetMsg)
    | GetBlock(getMsg: GetMsg)
    | Unknown

  /** What a receiver understands of a frame. */
  datatype Message = Message(to: Address, from: Address, body: Body, data: Payload)

  function BodyOf(mtype: bv8, command: bv16): Body {
    if mtype == TIMESYNC then TimeSync
    else if mtype == UNSOLICITED then Unsolicited
    else if mtype == TELECOMMAND then Tc(GetTcTmKind(command), GetChannel(command))
    else if mtype == TELEMETRY then Tm(GetTcTmKind(command), GetChannel(command))
    else if mtype == SETBLOCK then SetBlock(DecodeSet(command))
    else if mtype == GETBLOCK then GetBlock(DecodeGet(command))
    else Unknown
  }

  function HeaderMessage(h: Header, data: Payload): Message {
    Message(h.to, h.from, BodyOf(h.mtype, h.command), data)
  }

  function Understand(f: CanFrame): Message {
    HeaderMessage(Decode(f.id), f.data)
  }

  /** A frame built from a header that fits is understood as that header says. */
  lemma FramesAreUnderstood(h: Header, data: Payload)
    requires FitsIdentifier(h)
    ensures Encode(h) < 0x2000_0000
    ensures Understand(CanFrame(Encode(h), data)) == HeaderMessage(h, data)
  {
    HeaderRoundTrip(h);
  }

  /** Which message type numbers mean what. */
  lemma BodiesByType(mtype: bv8, command: bv16)
    ensures BodyOf(0, command) == TimeSync && BodyOf(1, command) == Unsolicited
    ensures BodyOf(2, command) == Tc(GetTcTmKind(command), GetChannel(command))
    ensures BodyOf(3, command) == Tm(GetTcTmKind(command), GetChannel(command))
    ensures BodyOf(4, command) == SetBlock(DecodeSet(command))
    ensures BodyOf(5, command) == GetBlock(DecodeGet(command))
    ensures mtype >= 6 ==> BodyOf(mtype, command) == Unknown
  {
  }

  /** What a frame says, by the numbers in its identifier. */
  lemma MessageLayout(f: CanFrame)
    ensures Understand(f).to == Address((f.id / 0x20_0000 % 256) as bv8)
    ensures Understand(f).from == Address((f.id / 1024 % 256) as bv8)
    ensures Understand(f).body == BodyOf((f.id / 0x4_0000 % 8) as bv8, (f.id % 1024) as bv16)
    ensures Understand(f).data == f.data
  {
    HeaderLayout(f.id);
  }

  // ---------- The telecommand and telemetry slots ----------

  /** A synchronous request that may be outstanding. */
  datatype PendingTcTm = PendingTcTm(waiting: bool, done: bool, ok: bool, peer: Address, channel: bv8, data: Payload)

  const FREE := PendingTcTm(false, false, false, BROADCAST, 0, [])

  function ClaimedFor(to: Address, channel: bv8): PendingTcTm {
    FREE.(waiting := true, peer := to, channel := channel)
  }

  predicate Matches(s: PendingTcTm, from: Address, kind: ReqAck, channel: bv8) {
    (kind.Ack? || kind.Nack?) && s.waiting && s.peer == from && s.channel == channel
  }

  function NoteReply(s: PendingTcTm, from: Address, kind: ReqAck, channel: bv8, data: Payload): PendingTcTm {
    if Matches(s, from, kind, channel) then s.(done := true, ok := kind.Ack?, data := data) else s
  }

  // ---------- A node ----------

  /** A full frame payload, as telemetry handlers fill it. */
  type Buffer = s: Payload | |s| == 8 witness [0, 0, 0, 0, 0, 0, 0, 0]

  datatype Endpoint = Endpoint(
    tc: PendingTcTm,
    tm: PendingTcTm,
    telemetry: Payload,
    setBlock: SetSpec.Node,
    getBlock: GetSpec.Node)

  datatype TcAnswer = NoTcHandler | TcVerdict(ok: bool)

  datatype TmAnswer = NoTmHandler | TmDeclined | TmGiven(data: Buffer)

  predicate Executes(answers: Answers) {
    answers.tc.TcVerdict? && answers.tc.ok
  }

  /** How the application answers if it is consulted while a message is handled. */
  datatype Answers = Answers(
    tc: TcAnswer,
    tm: TmAnswer,
    setBlock: SetSpec.Answer,
    getBlock: GetSpec.Answer)

  /** What a handler is called with. */
  datatype Consultation =
    | AskTelecommand(from: Address, channel: bv8, request: Buffer)
    | AskTelemetry(from: Address, channel: bv8)
    | AskWrite(from: Address, payload: seq<Byte>)
    | AskRead(from: Address)

  datatype Outcome = Outcome(state: Endpoint, replies: seq<Message>, consulted: seq<Consultation>)

  /** A payload copied over the front of a zeroed buffer. */
  function InBuffer(data: Payload): (b: Buffer)
    ensures data <= b && forall i :: |data| <= i < 8 ==> b[i] == 0
  {
    data + seq(8 - |data|, i => 0)
  }

  function Verdict(ok: bool): ReqAck {
    if ok then ReqAck.Ack else ReqAck.Nack
  }

  function OnTc(me: Address, st: Endpoint, m: Message, answers: Answers): Outcome
    requires m.body.Tc?
  {
    if m.body.kind.Req? then
      Outcome(st, [Message(m.from, me, Tc(Verdict(Executes(answers)), m.body.channel), m.data)],
              if answers.tc.NoTcHandler? then [] else [AskTelecommand(m.from, m.body.channel, InBuffer(m.data))])
    else
      Outcome(st.(tc := NoteReply(st.tc, m.from, m.body.kind, m.body.channel, m.data)), [], [])
  }

  function OnTm(me: Address, st: Endpoint, m: Message, answers: Answers): Outcome
    requires m.body.Tm?
  {
    if m.body.kind.Req? then
      Outcome(st, [Message(m.from, me, Tm(Verdict(answers.tm.TmGiven?), m.body.channel),
                           if answers.tm.TmGiven? then answers.tm.data else [])],
              if answers.tm.NoTmHandler? then [] else [AskTelemetry(m.from, m.body.channel)])
    else
      Outcome(st.(tm := NoteReply(st.tm, m.from, m.body.kind, m.body.channel, m.data),
                  telemetry := if Matches(st.tm, m.from, m.body.kind, m.body.channel)
                      then m.data else st.telemetry), [], [])
  }

  function FromSet(ps: seq<SetSpec.Packet>): (ms: seq<Message>)
    ensures |ms| == |ps|
  {
    seq(|ps|, i requires 0 <= i < |ps| => Message(ps[i].to, ps[i].from, SetBlock(ps[i].msg), ps[i].data))
  }

  function FromGet(ps: seq<GetSpec.Packet>): (ms: seq<Message>)
    ensures |ms| == |ps|
  {
    seq(|ps|, i requires 0 <= i < |ps| => Message(ps[i].to, ps[i].from, GetBlock(ps[i].msg), ps[i].data))
  }

  function Writes(ds: seq<SetSpec.Delivery>, answer: SetSpec.Answer): seq<Consultation> {
    if answer.NoHandler? then [] else seq(|ds|, i requires 0 <= i < |ds| => AskWrite(ds[i].from, ds[i].payload))
  }

  function Reads(from: Address, kind: GetKind, answer: GetSpec.Answer): seq<Consultation> {
    if kind.Request? && !answer.NoHandler? then [AskRead(from)] else []
  }

  /** Everything one message does to a node. */
  function Dispatch(me: Address, st: Endpoint, m: Message, answers: Answers): Outcome {
    if m.to != me && m.to != BROADCAST then Outcome(st, [], [])
    else match m.body
      case Tc(_, _) => OnTc(me, st, m, answers)
      case Tm(_, _) => OnTm(me, st, m, answers)
      case SetBlock(msg) =>
        var r := SetSpec.React(me, st.setBlock, m.from, msg, m.data, answers.setBlock);
        Outcome(st.(setBlock := r.node), FromSet(r.replies), Writes(r.deliveries, answers.setBlock))
      case GetBlock(msg) =>
        var r := GetSpec.React(me, st.getBlock, m.from, msg, m.data, answers.getBlock);
        Outcome(st.(getBlock := r.node), FromGet(r.replies), Reads(m.from, msg.kind, answers.getBlock))
      case _ => Outcome(st, [], [])
  }

  /** What a look at the cache gives: nothing if it is empty. */
  function Shown(cache: Payload): Option<Payload> {
    if cache == [] then None else Some(cache)
  }

  /** A message that arrives, and the application's answers if it is consulted. */
  datatype Arrival = Arrival(m: Message, answers: Answers)

  /** Everything that a series of arriving messages does to a node. */
  function Hear(me: Address, st: Endpoint, ins: seq<Arrival>): Outcome {
    if ins == [] then Outcome(st, [], [])
    else
      var before := Hear(me, st, ins[..|ins| - 1]);
      var o := Dispatch(me, before.state, ins[|ins| - 1].m, ins[|ins| - 1].answers);
      Outcome(o.state, before.replies + o.replies, before.consulted + o.consulted)
  }

  lemma HearOne(me: Address, st: Endpoint, ins: seq<Arrival>, a: Arrival, o: Outcome)
    requires o == Dispatch(me, Hear(me, st, ins).state, a.m, a.answers)
    ensures var before := Hear(me, st, ins);
            Hear(me, st, ins + [a]) == Outcome(o.state, before.replies + o.replies, before.consulted + o.consulted)
  {
    assert (ins + [a])[..|ins + [a]| - 1] == ins;
  }

  function Messages(ins: seq<Arrival>): (ms: seq<Message>)
    ensures |ms| == |ins|
  {
    seq(|ins|, i requires 0 <= i < |ins| => ins[i].m)
  }
}
