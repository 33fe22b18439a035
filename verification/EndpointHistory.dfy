/**
 * What a node sends and what its application is asked, message by message, after any messages from any nodes.
 * Everything is read off the messages themselves.
 */
module EndpointHistory {
  import opened CanTypes
  import opened Codec
  import opened Blocks
  import opened Sequences
  import opened ProtocolSpec
  import SetSpec = SetBlockSpec
  import GetSpec = GetBlockSpec
  import SetRun = SetBlockRun
  import GetRun = GetBlockRun
  import SetHist = SetBlockHistory
  import GetHist = GetBlockHistory

  /** Addressed to this node or to all. */
  predicate Concerns(me: Address, m: Message) {
    m.to == me || m.to == Address(0)
  }

  // ---------- The block frames among the arrivals ----------

  predicate IsWrite(me: Address, x: Arrival) {
    Concerns(me, x.m) && x.m.body.SetBlock?
  }

  function WriteFrame(x: Arrival): SetRun.Inbound
    requires x.m.body.SetBlock?
  {
    SetRun.Inbound(x.m.from, x.m.body.setMsg, x.m.data, x.answers.setBlock)
  }

  function WriteFrames(me: Address, ins: seq<Arrival>): seq<SetRun.Inbound> {
    if ins == [] then []
    else
      var rest := WriteFrames(me, ins[..|ins| - 1]);
      if IsWrite(me, Last(ins)) then rest + [WriteFrame(Last(ins))] else rest
  }

  predicate IsRead(me: Address, x: Arrival) {
    Concerns(me, x.m) && x.m.body.GetBlock?
  }

  function ReadFrame(x: Arrival): GetRun.Inbound
    requires x.m.body.GetBlock?
  {
    GetRun.Inbound(x.m.from, x.m.body.getMsg, x.m.data, x.answers.getBlock)
  }

  function ReadFrames(me: Address, ins: seq<Arrival>): seq<GetRun.Inbound> {
    if ins == [] then []
    else
      var rest := ReadFrames(me, ins[..|ins| - 1]);
      if IsRead(me, Last(ins)) then rest + [ReadFrame(Last(ins))] else rest
  }

  /** No session and no transaction of its own; the rest may be anything. */
  predicate Fresh(st: Endpoint) {
    st.setBlock == SetHist.FRESH_NODE && st.getBlock == GetSpec.Node(map[], GetSpec.CLEARED, st.getBlock.lastData)
  }

  lemma WritePlays(me: Address, h: seq<SetRun.Inbound>, st: Endpoint, x: Arrival)
    requires st.setBlock == SetHist.Play(me, SetHist.FRESH_NODE, h).node
    ensures Dispatch(me, st, x.m, x.answers).state.setBlock
         == SetHist.Play(me, SetHist.FRESH_NODE, if IsWrite(me, x) then h + [WriteFrame(x)] else h).node
  {
    if IsWrite(me, x) {
      SetHist.PlayOne(me, SetHist.FRESH_NODE, h, WriteFrame(x));
    }
  }

  lemma ReadPlays(me: Address, start: GetSpec.Node, h: seq<GetRun.Inbound>, st: Endpoint, x: Arrival)
    requires st.getBlock == GetHist.Play(me, start, h).node
    ensures Dispatch(me, st, x.m, x.answers).state.getBlock
         == GetHist.Play(me, start, if IsRead(me, x) then h + [ReadFrame(x)] else h).node
  {
    if IsRead(me, x) {
      GetHist.PlayOne(me, start, h, ReadFrame(x));
    }
  }

  /** The managers of a node have handled exactly the block frames among its arrivals. */
  lemma {:induction false} HearPlays(me: Address, st: Endpoint, ins: seq<Arrival>)
    requires Fresh(st)
    ensures Hear(me, st, ins).state.setBlock == SetHist.Play(me, SetHist.FRESH_NODE, WriteFrames(me, ins)).node
    ensures Hear(me, st, ins).state.getBlock == GetHist.Play(me, st.getBlock, ReadFrames(me, ins)).node
  {
    if ins != [] {
      var less, x := ins[..|ins| - 1], Last(ins);
      HearPlays(me, st, less);
      WritePlays(me, WriteFrames(me, less), Hear(me, st, less).state, x);
      ReadPlays(me, st.getBlock, ReadFrames(me, less), Hear(me, st, less).state, x);
    }
  }

  // ---------- Replies and handler calls ----------

  /** What the node does with the next message. */
  function Next(me: Address, st: Endpoint, ins: seq<Arrival>, x: Arrival): Outcome {
    Dispatch(me, Hear(me, st, ins).state, x.m, x.answers)
  }

  /** The messages are these SETBLOCK packets. */
  predicate CarryWrites(ms: seq<Message>, ps: seq<SetSpec.Packet>) {
    && |ms| == |ps|
    && forall x :: 0 <= x < |ms| ==> ms[x] == Message(ps[x].to, ps[x].from, SetBlock(ps[x].msg), ps[x].data)
  }

  /** The messages are these GETBLOCK packets. */
  predicate CarryReads(ms: seq<Message>, ps: seq<GetSpec.Packet>) {
    && |ms| == |ps|
    && forall x :: 0 <= x < |ms| ==> ms[x] == Message(ps[x].to, ps[x].from, GetBlock(ps[x].msg), ps[x].data)
  }

  /** What a SETBLOCK message makes the node ask: a handler gets a complete payload that is not yet taken. */
  function WriteAsks(h: seq<SetRun.Inbound>, m: SetRun.Inbound): seq<Consultation> {
    if m.msg.kind.StatusRequest? && !m.answer.NoHandler? && SetHist.Complete(h, m.from) && !SetHist.Taken(h, m.from)
    then [AskWrite(m.from, Flatten(SetHist.BlocksOf(h, m.from)))]
    else []
  }

  /** A SETBLOCK message gets the reply that the history demands, and the application what it should get. */
  lemma WriteAnswered(me: Address, st: Endpoint, ins: seq<Arrival>, x: Arrival)
    requires Fresh(st) && IsWrite(me, x)
    ensures exists ps :: CarryWrites(Next(me, st, ins, x).replies, ps)
                         && SetHist.IsAnswer(me, WriteFrames(me, ins), WriteFrame(x), ps)
    ensures Next(me, st, ins, x).consulted == WriteAsks(WriteFrames(me, ins), WriteFrame(x))
  {
    var h, m := WriteFrames(me, ins), WriteFrame(x);
    HearPlays(me, st, ins);
    SetHist.RepliesExplained(me, h, m);
    WriteConsults(me, h, m);
    assert CarryWrites(Next(me, st, ins, x).replies, SetHist.Next(me, h, m).replies);
  }

  lemma WriteConsults(me: Address, h: seq<SetRun.Inbound>, m: SetRun.Inbound)
    ensures Writes(SetHist.Next(me, h, m).deliveries, m.answer) == WriteAsks(h, m)
  {
    SetHist.HistoryExplains(me, h);
    SetHist.DeliveriesExplained(me, h, SetHist.Play(me, SetHist.FRESH_NODE, h).node, m);
    assert (h + [m])[..|h + [m]| - 1] == h;
    var before, more := SetHist.Deliveries(h), SetHist.Next(me, h, m).deliveries;
    assert (before + more)[|before|..] == more;
    assert SetHist.Deliveries(h + [m])[|before|..] == more;
  }

  /** A GETBLOCK message gets the replies that the history demands; a handler is asked for each request. */
  lemma ReadAnswered(me: Address, st: Endpoint, ins: seq<Arrival>, x: Arrival)
    requires Fresh(st) && IsRead(me, x)
    ensures exists ps :: CarryReads(Next(me, st, ins, x).replies, ps)
                         && GetHist.IsAnswer(me, ReadFrames(me, ins), ReadFrame(x), ps)
    ensures var asks := x.m.body.getMsg.kind == GetKind.Request && x.answers.getBlock != GetSpec.NoHandler;
            Next(me, st, ins, x).consulted == if asks then [AskRead(x.m.from)] else []
  {
    var h, m := ReadFrames(me, ins), ReadFrame(x);
    HearPlays(me, st, ins);
    GetHist.RepliesExplained(me, st.getBlock.lastData, h, m);
    assert CarryReads(Next(me, st, ins, x).replies, GetHist.Next(me, st.getBlock.lastData, h, m).replies);
  }

  /** Eight bytes: the payload, then zeros. */
  predicate ZeroFilled(b: Buffer, data: Payload) {
    data <= b && forall i :: |data| <= i < 8 ==> b[i] == 0
  }

  /** A telecommand request is put to the handler with sender, channel and payload, and its verdict sent back. */
  lemma TelecommandAnswered(me: Address, st: Endpoint, m: Message, answers: Answers, channel: bv8)
    requires Concerns(me, m) && m.body == Tc(ReqAck.Req, channel)
    ensures var o := Dispatch(me, st, m, answers);
            && o.state == st
            && o.replies == [Message(m.from, me, Tc(if answers.tc == TcVerdict(true)
                then ReqAck.Ack else ReqAck.Nack, channel), m.data)]
            && |o.consulted| == (if answers.tc == NoTcHandler then 0 else 1)
            && forall c :: c in o.consulted ==>
                 c.AskTelecommand? && c.from == m.from && c.channel == channel && ZeroFilled(c.request, m.data)
  {
  }

  /** A telemetry request is answered with the handler's eight bytes, or refused without data. */
  lemma TelemetryAnswered(me: Address, st: Endpoint, m: Message, answers: Answers, channel: bv8)
    requires Concerns(me, m) && m.body == Tm(ReqAck.Req, channel)
    ensures var o := Dispatch(me, st, m, answers);
            && o.state == st
            && o.replies == (match answers.tm
                             case TmGiven(data) => [Message(m.from, me, Tm(ReqAck.Ack, channel), data)]
                             case _ => [Message(m.from, me, Tm(ReqAck.Nack, channel), [])])
            && o.consulted == if answers.tm == NoTmHandler then [] else [AskTelemetry(m.from, channel)]
  {
  }

  /** The outstanding request this reply is for, if any, is answered; a telemetry reply is also kept. */
  lemma RepliesHeard(me: Address, st: Endpoint, m: Message, answers: Answers, kind: ReqAck, channel: bv8)
    requires Concerns(me, m) && (kind == ReqAck.Ack || kind == ReqAck.Nack)
    ensures var tc := st.tc.(done := true, ok := kind == ReqAck.Ack, data := m.data);
            var mine := st.tc.waiting && st.tc.peer == m.from && st.tc.channel == channel;
            m.body == Tc(kind, channel) ==> Dispatch(me, st, m, answers).state == if mine then st.(tc := tc) else st
    ensures var tm := st.tm.(done := true, ok := kind == ReqAck.Ack, data := m.data);
            var mine := st.tm.waiting && st.tm.peer == m.from && st.tm.channel == channel;
            m.body == Tm(kind, channel) ==>
              Dispatch(me, st, m, answers).state == if mine then st.(tm := tm, telemetry := m.data) else st
  {
  }

  /** Other messages, and messages for other nodes, are not answered and put to no handler. */
  lemma OthersIgnored(me: Address, st: Endpoint, m: Message, answers: Answers)
    requires Concerns(me, m) ==> !m.body.SetBlock? && !m.body.GetBlock?
    requires Concerns(me, m) && m.body.Tc? ==> m.body.kind != ReqAck.Req
    requires Concerns(me, m) && m.body.Tm? ==> m.body.kind != ReqAck.Req
    ensures Dispatch(me, st, m, answers).replies == [] && Dispatch(me, st, m, answers).consulted == []
    ensures !Concerns(me, m) ==> Dispatch(me, st, m, answers).state == st
  {
  }

  // ---------- All that a write handler is given ----------

  function AllWriteAsks(h: seq<SetRun.Inbound>): seq<Consultation> {
    if h == [] then [] else AllWriteAsks(h[..|h| - 1]) + WriteAsks(h[..|h| - 1], Last(h))
  }

  function OnlyWrites(asked: seq<Consultation>): seq<Consultation> {
    Filter(asked, (c: Consultation) => c.AskWrite?)
  }

  lemma OnlyWritesOfOne(me: Address, st: Endpoint, ins: seq<Arrival>, x: Arrival)
    requires Fresh(st)
    ensures OnlyWrites(Next(me, st, ins, x).consulted)
         == if IsWrite(me, x) then WriteAsks(WriteFrames(me, ins), WriteFrame(x)) else []
  {
    var asked := Next(me, st, ins, x).consulted;
    if IsWrite(me, x) {
      WriteAnswered(me, st, ins, x);
    }
    FilterAlike(asked, (c: Consultation) => c.AskWrite?, IsWrite(me, x));
  }

  /** Over any arrivals, the write handler is called with exactly the complete, not yet taken payloads, in order. */
  lemma {:induction false} WritesAsked(me: Address, st: Endpoint, ins: seq<Arrival>)
    requires Fresh(st)
    ensures OnlyWrites(Hear(me, st, ins).consulted) == AllWriteAsks(WriteFrames(me, ins))
  {
    if ins != [] {
      var less, x := ins[..|ins| - 1], Last(ins);
      WritesAsked(me, st, less);
      OnlyWritesOfOne(me, st, less, x);
      FilterAppend(Hear(me, st, less).consulted, Next(me, st, less, x).consulted, (c: Consultation) => c.AskWrite?);
      if IsWrite(me, x) {
        var h := WriteFrames(me, less);
        assert (h + [WriteFrame(x)])[..|h + [WriteFrame(x)]| - 1] == h;
      }
    }
  }
}
