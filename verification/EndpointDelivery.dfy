/**
 * Writes and reads between two whole nodes that exchange messages over a bus that loses nothing and keeps
 * messages in order: what the two delivery modules prove of the managers, carried to the nodes.
 */
module EndpointDelivery {
  import opened CanTypes
  import opened Codec
  import opened Blocks
  import opened ProtocolSpec
  import SetSpec = SetBlockSpec
  import GetSpec = GetBlockSpec
  import W = SetBlockDelivery
  import R = GetBlockDelivery

  // ---------- A series of writes ----------

  /** As the series of SetBlockDelivery, with whole nodes, queues of messages, and what b's application is asked. */
  datatype Writes = Writes(
    index: nat,
    pc: SetSpec.Pc,
    a: Endpoint,
    b: Endpoint,
    toB: seq<Message>,
    toA: seq<Message>,
    asked: seq<Consultation>,
    results: seq<bool>)

  /** The answers of an application that only has a write handler, if that. */
  function WriteHandler(answer: SetSpec.Answer): Answers {
    Answers(NoTcHandler, NoTmHandler, answer, GetSpec.NoHandler)
  }

  predicate WriteEnabled(z: W.Series, s: Writes, e: W.Event) {
    s.index < |z.tasks| &&
    match e
    case Act =>
      var p := s.a.setBlock.pending;
      && SetSpec.WellPlaced(z.tasks[s.index].job, s.pc) && !s.pc.Returned?
      && (s.pc.AwaitAck? ==> p.requestAcked || p.done)
      && (s.pc.AwaitReport? ==> p.reportReceived || p.done)
    case AtResponder => s.toB != []
    case AtInitiator => s.toA != []
    case Next => s.pc.Returned? && s.index + 1 < |z.tasks|
  }

  function WriteApply(z: W.Series, s: Writes, e: W.Event): Writes
    requires WriteEnabled(z, s, e)
  {
    match e
    case Act =>
      var m := SetSpec.Advance(z.a, z.tasks[s.index].job, s.pc, s.a.setBlock.pending, true);
      s.(pc := m.pc, a := s.a.(setBlock := s.a.setBlock.(pending := m.pending)), toB := s.toB + FromSet(m.sent))
    case AtResponder =>
      var o := Dispatch(z.b, s.b, s.toB[0], WriteHandler(z.tasks[s.index].answer));
      s.(b := o.state, toB := s.toB[1..], toA := s.toA + o.replies, asked := s.asked + o.consulted)
    case AtInitiator =>
      var o := Dispatch(z.a, s.a, s.toA[0], WriteHandler(SetSpec.NoHandler));
      s.(a := o.state, toA := s.toA[1..])
    case Next =>
      s.(index := s.index + 1, pc := SetSpec.Begin, results := s.results + [s.pc.result])
  }

  /** The first of some acceptable tasks is about to start; the nodes may be in any state otherwise. */
  ghost predicate WriteInitial(z: W.Series, s: Writes) {
    && W.Proper(z) && s.index == 0 && s.pc == SetSpec.Begin && s.a.setBlock.pending == SetSpec.CLEARED
    && s.toA == [] && s.toB == [] && s.asked == [] && s.results == []
  }

  ghost predicate WriteSteps(z: W.Series, states: seq<Writes>, events: seq<W.Event>, i: nat)
    requires |states| == |events| + 1 && i < |events|
  {
    WriteEnabled(z, states[i], events[i]) && states[i + 1] == WriteApply(z, states[i], events[i])
  }

  ghost predicate IsWriteRun(z: W.Series, states: seq<Writes>, events: seq<W.Event>) {
    && |states| == |events| + 1 && WriteInitial(z, states[0])
    && forall i :: 0 <= i < |events| ==> WriteSteps(z, states, events, i)
  }

  ghost predicate WriteStuck(z: W.Series, s: Writes) {
    forall e :: !WriteEnabled(z, s, e)
  }

  /** What b's application is asked for the first k tasks: the padded data, if there is a handler to ask. */
  function Asked(z: W.Series, k: nat): seq<Consultation>
    requires k <= |z.tasks|
  {
    if k == 0 then []
    else if z.tasks[k - 1].answer == SetSpec.NoHandler then Asked(z, k - 1)
    else Asked(z, k - 1) + [AskWrite(z.a, Padded(z.tasks[k - 1].job.data))]
  }

  /** The managers inside the nodes are where the series of managers is. */
  ghost predicate WriteMatch(z: W.Series, s: Writes, f: W.Fifo) {
    && f.index == s.index && f.pc == s.pc && f.initiator == s.a.setBlock && f.responder == s.b.setBlock
    && s.toB == FromSet(f.toB) && s.toA == FromSet(f.toA) && f.results == s.results
    && |f.deliveries| <= |z.tasks| && s.asked == Asked(z, |f.deliveries|)
  }

  lemma FromSetConcat(x: seq<SetSpec.Packet>, y: seq<SetSpec.Packet>)
    ensures FromSet(x + y) == FromSet(x) + FromSet(y)
  {
  }

  lemma FromSetTail(x: seq<SetSpec.Packet>)
    requires x != []
    ensures FromSet(x)[0] == Message(x[0].to, x[0].from, SetBlock(x[0].msg), x[0].data)
    ensures FromSet(x)[1..] == FromSet(x[1..])
  {
  }

  /** In a series of writes the packets in the queues are addressed to the node at their end. */
  lemma HeadsAddressed(z: W.Series, f: W.Fifo, k: nat, j: nat, m: nat)
    requires W.Along(z, f, k, j, m)
    ensures f.toB != [] ==> f.toB[0].to == z.b && f.toB[0].from == z.a
    ensures f.toA != [] ==> f.toA[0].to == z.a && f.toA[0].from == z.b
  {
    var t := W.WriteAt(z, f.index);
    if f.toB != [] {
      W.ScriptFirst(t, j, k);
    }
    if f.toA != [] {
      W.RepliesFirst(t, m, j);
      W.ReplyIsNoted(t, f.initiator, m);
    }
  }

  lemma ActMatches(z: W.Series, s: Writes, f: W.Fifo, e: W.Event)
    requires e.Act? && WriteMatch(z, s, f) && WriteEnabled(z, s, e)
    ensures W.Enabled(z, f, e) && WriteMatch(z, WriteApply(z, s, e), W.Apply(z, f, e))
  {
    var sent := SetSpec.Advance(z.a, z.tasks[s.index].job, s.pc, s.a.setBlock.pending, true).sent;
    FromSetConcat(f.toB, sent);
  }

  lemma OneAsked(z: W.Series, i: nat, ds: seq<SetSpec.Delivery>)
    requires i < |z.tasks| && ds == [W.Offer(W.WriteAt(z, i))]
    ensures Asked(z, i + 1) == Asked(z, i) + ProtocolSpec.Writes(ds, z.tasks[i].answer)
  {
    if z.tasks[i].answer == SetSpec.NoHandler {
      assert Asked(z, i) + [] == Asked(z, i);
    }
  }

  lemma AskedMatches(z: W.Series, i: nat, n: nat, ds: seq<SetSpec.Delivery>)
    requires i < |z.tasks| && n <= |z.tasks| && (ds == [] || (n == i && ds == [W.Offer(W.WriteAt(z, i))]))
    ensures n + |ds| <= |z.tasks|
    ensures Asked(z, n + |ds|) == Asked(z, n) + ProtocolSpec.Writes(ds, z.tasks[i].answer)
  {
    if ds == [] {
      assert Asked(z, n) + [] == Asked(z, n);
    } else {
      OneAsked(z, i, ds);
    }
  }

  /** The packet that b handles next is a's, and what it delivers is the payload of the task under way. */
  predicate NextAtB(z: W.Series, f: W.Fifo) {
    && f.toB != [] && f.index < |z.tasks| && f.toB[0].to == z.b && f.toB[0].from == z.a
    && var ds := W.NextDeliveries(z, f);
       ds == [] || (|f.deliveries| == f.index && ds == [W.Offer(W.WriteAt(z, f.index))])
  }

  /** The packet that a handles next is b's, and no request. */
  predicate NextAtA(z: W.Series, f: W.Fifo) {
    && f.toA != [] && f.toA[0].to == z.a && f.toA[0].from == z.b
    && !SetSpec.IsRequestKind(f.toA[0].msg.kind)
  }

  /** A node hands a SETBLOCK message that is for it to its manager. */
  lemma Routed(me: Address, st: Endpoint, p: SetSpec.Packet, answer: SetSpec.Answer)
    requires p.to == me
    ensures var m := Message(p.to, p.from, SetBlock(p.msg), p.data);
            var r := SetSpec.React(me, st.setBlock, p.from, p.msg, p.data, answer);
            Dispatch(me, st, m, WriteHandler(answer))
            == Outcome(st.(setBlock := r.node), FromSet(r.replies), ProtocolSpec.Writes(r.deliveries, answer))
  {
  }

  lemma ResponderMatches(z: W.Series, s: Writes, f: W.Fifo, e: W.Event)
    requires e.AtResponder? && WriteMatch(z, s, f) && WriteEnabled(z, s, e) && NextAtB(z, f)
    ensures W.Enabled(z, f, e) && WriteMatch(z, WriteApply(z, s, e), W.Apply(z, f, e))
  {
    FromSetTail(f.toB);
    var p := f.toB[0];
    var r := SetSpec.React(z.b, f.responder, p.from, p.msg, p.data, z.tasks[f.index].answer);
    FromSetConcat(f.toA, r.replies);
    Routed(z.b, s.b, p, z.tasks[f.index].answer);
    AskedMatches(z, f.index, |f.deliveries|, W.NextDeliveries(z, f));
  }

  lemma InitiatorMatches(z: W.Series, s: Writes, f: W.Fifo, e: W.Event)
    requires e.AtInitiator? && WriteMatch(z, s, f) && WriteEnabled(z, s, e) && NextAtA(z, f)
    ensures W.Enabled(z, f, e) && WriteMatch(z, WriteApply(z, s, e), W.Apply(z, f, e))
  {
    FromSetTail(f.toA);
  }

  /** What a hears asks nothing of its application. */
  lemma AnswerIsUnused(z: W.Series, f: W.Fifo, k: nat, j: nat, m: nat)
    requires W.Along(z, f, k, j, m) && f.toA != []
    ensures !SetSpec.IsRequestKind(f.toA[0].msg.kind)
  {
    var t := W.WriteAt(z, f.index);
    W.RepliesFirst(t, m, j);
    W.FullReportBits(t);
  }

  lemma NextHandled(z: W.Series, f: W.Fifo, k: nat, j: nat, m: nat)
    requires W.Along(z, f, k, j, m)
    ensures f.toB != [] ==> NextAtB(z, f)
    ensures f.toA != [] ==> NextAtA(z, f)
  {
    HeadsAddressed(z, f, k, j, m);
    if f.toB != [] {
      W.NextOffer(z, f, k, j, m);
    }
    if f.toA != [] {
      AnswerIsUnused(z, f, k, j, m);
    }
  }

  lemma StepMatches(z: W.Series, s: Writes, f: W.Fifo, e: W.Event)
    requires WriteMatch(z, s, f) && WriteEnabled(z, s, e)
    requires (f.toB != [] ==> NextAtB(z, f)) && (f.toA != [] ==> NextAtA(z, f))
    ensures W.Enabled(z, f, e) && WriteMatch(z, WriteApply(z, s, e), W.Apply(z, f, e))
  {
    match e
    case Act => ActMatches(z, s, f, e);
    case AtResponder => ResponderMatches(z, s, f, e);
    case AtInitiator => InitiatorMatches(z, s, f, e);
    case Next =>
  }

  /** Where a run of the nodes stands, as a state of the series of managers. */
  lemma {:induction false} WritePosition(z: W.Series, states: seq<Writes>, events: seq<W.Event>, i: nat)
    returns (f: W.Fifo, k: nat, j: nat, m: nat)
    requires IsWriteRun(z, states, events) && i < |states|
    ensures WriteMatch(z, states[i], f) && W.Along(z, f, k, j, m)
    ensures i + W.Remaining(z, f, j, m) + 1 == W.Later(z, 0)
  {
    if i == 0 {
      var s := states[0];
      f, k, j, m := W.Fifo(0, SetSpec.Begin, s.a.setBlock, s.b.setBlock, [], [], [], []), 0, 0, 0;
      W.StartAlong(z, f);
    } else {
      f, k, j, m := WritePosition(z, states, events, i - 1);
      assert WriteSteps(z, states, events, i - 1);
      var e, g := events[i - 1], f;
      NextHandled(z, g, k, j, m);
      StepMatches(z, states[i - 1], g, e);
      f := W.Apply(z, g, e);
      k, j, m := W.OneStep(z, g, e, k, j, m);
    }
  }

  lemma StuckMatches(z: W.Series, s: Writes, f: W.Fifo)
    requires WriteMatch(z, s, f) && WriteStuck(z, s)
    ensures W.Stuck(z, f)
  {
    forall e
      ensures !W.Enabled(z, f, e)
    {
      assert !WriteEnabled(z, s, e);
    }
  }

  /**
   * Completeness between two nodes. Writes made back to back each return true exactly if b's application takes the
   * padded data or b has no handler, and the handler is called once for each, in order. Every run ends, with all
   * writes returned, no message left and no session at b.
   */
  lemma SeriesCompletes(z: W.Series, states: seq<Writes>, events: seq<W.Event>)
    requires IsWriteRun(z, states, events)
    ensures |events| < W.Later(z, 0)
    ensures var end := states[|events|];
            && end.index < |z.tasks| && |end.results| == end.index
            && (forall x :: 0 <= x < end.index ==> end.results[x] == (z.tasks[x].answer != SetSpec.Answered(false)))
            && (end.pc.Returned? ==> end.pc.result == (z.tasks[end.index].answer != SetSpec.Answered(false))
                                     && end.asked == Asked(z, end.index + 1))
            && (WriteStuck(z, end) ==> end.index == |z.tasks| - 1 && end.pc.Returned?
                                       && end.toA == [] && end.toB == [] && z.a !in end.b.setBlock.sessions)
  {
    var end := states[|events|];
    var f, k, j, m := WritePosition(z, states, events, |events|);
    W.OneMore(z, end.index);
    if WriteStuck(z, end) {
      StuckMatches(z, end, f);
      W.StuckIsOver(z, f, k, j, m);
    }
  }

  /** When the report has come, b's session holds the first eight bytes of the block address and every block. */
  lemma SessionOfWrite(z: W.Series, states: seq<Writes>, events: seq<W.Event>, i: nat)
    requires IsWriteRun(z, states, events) && i < |states| && states[i].pc.SendAbort?
    ensures states[i].index < |z.tasks| && z.a in states[i].b.setBlock.sessions
    ensures var job, session := z.tasks[states[i].index].job, states[i].b.setBlock.sessions[z.a];
            && session.numBlocks == (|job.data| + 7) / 8
            && session.address == job.address[..if |job.address| < 8 then |job.address| else 8]
            && Flatten(session.blocks) == Padded(job.data)
  {
    var f, k, j, m := WritePosition(z, states, events, i);
    W.SessionWhenReported(z, f, k, j, m);
  }

  // ---------- A read ----------

  /** As GetBlockDelivery, with whole nodes and queues of messages. */
  datatype Reading = Reading(pc: GetSpec.Pc, a: Endpoint, b: Endpoint, toB: seq<Message>, toA: seq<Message>)

  /** The answers of an application that only has a read handler, if that. */
  function ReadHandler(answer: GetSpec.Answer): Answers {
    Answers(NoTcHandler, NoTmHandler, SetSpec.NoHandler, answer)
  }

  predicate ReadEnabled(s: Reading, e: R.Event) {
    match e
    case Act =>
      var p := s.a.getBlock.pending;
      && !s.pc.Returned? && (s.pc.AwaitAck? ==> p.acked || p.done) && (s.pc.AwaitTransfers? ==> p.done)
    case AtResponder => s.toB != []
    case AtInitiator => s.toA != []
  }

  function ReadApply(t: R.Read, s: Reading, e: R.Event): Reading
    requires ReadEnabled(s, e)
  {
    match e
    case Act =>
      var m := GetSpec.Advance(t.a, t.job, s.pc, s.a.getBlock.pending, true);
      s.(pc := m.pc, a := s.a.(getBlock := s.a.getBlock.(pending := m.pending)), toB := s.toB + FromGet(m.sent))
    case AtResponder =>
      var o := Dispatch(t.b, s.b, s.toB[0], ReadHandler(t.answer));
      s.(b := o.state, toB := s.toB[1..], toA := s.toA + o.replies)
    case AtInitiator =>
      var o := Dispatch(t.a, s.a, s.toA[0], ReadHandler(GetSpec.Declines));
      s.(a := o.state, toA := s.toA[1..])
  }

  ghost predicate ReadInitial(t: R.Read, s: Reading) {
    && t.job.address != [] && t.job.to == t.b
    && s.pc == GetSpec.Begin && s.a.getBlock.pending == GetSpec.CLEARED && s.a.getBlock.lastData == t.earlier
    && s.toA == [] && s.toB == []
  }

  ghost predicate ReadSteps(t: R.Read, states: seq<Reading>, events: seq<R.Event>, i: nat)
    requires |states| == |events| + 1 && i < |events|
  {
    ReadEnabled(states[i], events[i]) && states[i + 1] == ReadApply(t, states[i], events[i])
  }

  ghost predicate IsReadRun(t: R.Read, states: seq<Reading>, events: seq<R.Event>) {
    && |states| == |events| + 1 && ReadInitial(t, states[0])
    && forall i :: 0 <= i < |events| ==> ReadSteps(t, states, events, i)
  }

  ghost predicate ReadStuck(s: Reading) {
    forall e :: !ReadEnabled(s, e)
  }

  ghost predicate ReadMatch(s: Reading, f: R.Fifo) {
    && f.pc == s.pc && f.initiator == s.a.getBlock && f.responder == s.b.getBlock
    && s.toB == FromGet(f.toB) && s.toA == FromGet(f.toA)
  }

  lemma FromGetConcat(x: seq<GetSpec.Packet>, y: seq<GetSpec.Packet>)
    ensures FromGet(x + y) == FromGet(x) + FromGet(y)
  {
  }

  lemma FromGetTail(x: seq<GetSpec.Packet>)
    requires x != []
    ensures FromGet(x)[0] == Message(x[0].to, x[0].from, GetBlock(x[0].msg), x[0].data)
    ensures FromGet(x)[1..] == FromGet(x[1..])
  {
  }

  lemma ReadHeads(t: R.Read, f: R.Fifo, k: nat, j: nat, m: nat)
    requires R.At(t, f, k, j, m)
    ensures f.toB != [] ==> f.toB[0].to == t.b && f.toB[0].from == t.a
    ensures f.toA != [] ==> f.toA[0].to == t.a && f.toA[0].from == t.b
  {
    if f.toA != [] {
      assert f.toA[0] == R.ReplyAt(t, m);
    }
  }

  lemma ReadActMatches(t: R.Read, s: Reading, f: R.Fifo, e: R.Event)
    requires e.Act? && ReadMatch(s, f) && ReadEnabled(s, e)
    ensures R.Enabled(f, e) && ReadMatch(ReadApply(t, s, e), R.Apply(t, f, e))
  {
    FromGetConcat(f.toB, GetSpec.Advance(t.a, t.job, s.pc, s.a.getBlock.pending, true).sent);
  }

  lemma ReadResponderMatches(t: R.Read, s: Reading, f: R.Fifo, e: R.Event, k: nat, j: nat, m: nat)
    requires e.AtResponder? && ReadMatch(s, f) && ReadEnabled(s, e) && R.At(t, f, k, j, m)
    ensures R.Enabled(f, e) && ReadMatch(ReadApply(t, s, e), R.Apply(t, f, e))
  {
    ReadHeads(t, f, k, j, m);
    FromGetTail(f.toB);
    var p := f.toB[0];
    FromGetConcat(f.toA, GetSpec.React(t.b, f.responder, p.from, p.msg, p.data, t.answer).replies);
  }

  lemma ReadInitiatorMatches(t: R.Read, s: Reading, f: R.Fifo, e: R.Event, k: nat, j: nat, m: nat)
    requires e.AtInitiator? && ReadMatch(s, f) && ReadEnabled(s, e) && R.At(t, f, k, j, m)
    ensures R.Enabled(f, e) && ReadMatch(ReadApply(t, s, e), R.Apply(t, f, e))
  {
    ReadHeads(t, f, k, j, m);
    FromGetTail(f.toA);
  }

  lemma ReadStepMatches(t: R.Read, s: Reading, f: R.Fifo, e: R.Event, k: nat, j: nat, m: nat)
    requires ReadMatch(s, f) && ReadEnabled(s, e) && R.At(t, f, k, j, m)
    ensures R.Enabled(f, e) && ReadMatch(ReadApply(t, s, e), R.Apply(t, f, e))
  {
    match e
    case Act => ReadActMatches(t, s, f, e);
    case AtResponder => ReadResponderMatches(t, s, f, e, k, j, m);
    case AtInitiator => ReadInitiatorMatches(t, s, f, e, k, j, m);
  }

  lemma {:induction false} ReadPosition(t: R.Read, states: seq<Reading>, events: seq<R.Event>, i: nat)
    returns (f: R.Fifo, k: nat, j: nat, m: nat)
    requires IsReadRun(t, states, events) && i < |states|
    ensures ReadMatch(states[i], f) && R.At(t, f, k, j, m)
    ensures i + R.SectionsLeft(t, f.pc) == R.SectionsLeft(t, GetSpec.Begin) + j + m
  {
    if i == 0 {
      var s := states[0];
      f, k, j, m := R.Fifo(GetSpec.Begin, s.a.getBlock, s.b.getBlock, [], []), 0, 0, 0;
    } else {
      f, k, j, m := ReadPosition(t, states, events, i - 1);
      assert ReadSteps(t, states, events, i - 1);
      var e, g := events[i - 1], f;
      ReadStepMatches(t, states[i - 1], g, e, k, j, m);
      f := R.Apply(t, g, e);
      k, j, m := R.OneStep(t, g, e, k, j, m);
    }
  }

  lemma ReadStuckMatches(s: Reading, f: R.Fifo)
    requires ReadMatch(s, f) && ReadStuck(s)
    ensures R.Stuck(f)
  {
    forall e
      ensures !R.Enabled(f, e)
    {
      assert !ReadEnabled(s, e);
    }
  }

  /** b's application gives a response of 512 bytes. */
  predicate GivesAll(t: R.Read) {
    t.answer.Provides? && |t.answer.response| == 512
  }

  /**
   * Completeness between two nodes. Every run takes at most 72 events and can only end once the read has returned,
   * true exactly if b's application gave 512 bytes, which a then holds. b keeps the session, with the first eight
   * bytes of the block address and the response.
   */
  lemma ReadCompletes(t: R.Read, states: seq<Reading>, events: seq<R.Event>)
    requires IsReadRun(t, states, events)
    ensures |events| <= 72
    ensures var end := states[|events|];
            && (end.pc.Returned? ==>
                  && end.pc.result == GivesAll(t)
                  && end.a.getBlock.lastData == if GivesAll(t) then t.answer.response else t.earlier)
            && (ReadStuck(end) ==> end.pc.Returned? && end.toA == [] && end.toB == [])
            && (ReadStuck(end) && GivesAll(t) ==>
                  && t.a in end.b.getBlock.sessions
                  && var session := end.b.getBlock.sessions[t.a];
                     && session.address == t.job.address[..if |t.job.address| < 8 then |t.job.address| else 8]
                     && session.numBlocks == 64 && Flatten(session.blocks) == t.answer.response)
  {
    var end := states[|events|];
    var f, k, j, m := ReadPosition(t, states, events, |events|);
    if ReadStuck(end) {
      ReadStuckMatches(end, f);
      R.StuckIsOver(t, f, k, j, m);
      if GivesAll(t) {
        SlicesRoundTrip(t.answer.response, 64);
      }
    }
  }
}
