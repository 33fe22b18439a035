/**
 * Reads over a bus that loses nothing and keeps frames in order. No wait times out and every frame is
 * taken for sending; otherwise the two nodes and the two queues run at any relative speed.
 */
module GetBlockDelivery {
  import opened CanTypes
  import opened Codec
  import opened Blocks
  import opened GetBlockSpec
  import opened GetBlockOutcome

  /** Node a reads from node b, whose application answers in the given way. */
  datatype Read = Read(a: Address, b: Address, job: Job, answer: Answer, earlier: seq<Byte>)

  datatype Fifo = Fifo(pc: Pc, initiator: Node, responder: Node, toB: seq<Packet>, toA: seq<Packet>)

  datatype Event = Act | AtResponder | AtInitiator

  /** A section runs; a waiting one only once its condition holds. */
  predicate Enabled(s: Fifo, e: Event) {
    match e
    case Act =>
      && !s.pc.Returned?
      && (s.pc.AwaitAck? ==> s.initiator.pending.acked || s.initiator.pending.done)
      && (s.pc.AwaitTransfers? ==> s.initiator.pending.done)
    case AtResponder => s.toB != []
    case AtInitiator => s.toA != []
  }

  function Apply(t: Read, s: Fifo, e: Event): Fifo
    requires Enabled(s, e)
  {
    match e
    case Act =>
      var m := Advance(t.a, t.job, s.pc, s.initiator.pending, true);
      s.(pc := m.pc, initiator := s.initiator.(pending := m.pending), toB := s.toB + m.sent)
    case AtResponder =>
      var p := s.toB[0];
      var r := React(t.b, s.responder, p.from, p.msg, p.data, t.answer);
      s.(responder := r.node, toB := s.toB[1..], toA := s.toA + r.replies)
    case AtInitiator =>
      var p := s.toA[0];
      s.(initiator := React(t.a, s.initiator, p.from, p.msg, p.data, Declines).node, toA := s.toA[1..])
  }

  /** A read that names an address is about to start; b may hold any old session. */
  ghost predicate Initial(t: Read, s: Fifo) {
    && t.job.address != [] && t.job.to == t.b
    && s.pc == Begin && s.initiator.pending == CLEARED && s.initiator.lastData == t.earlier
    && s.toA == [] && s.toB == []
  }

  /** The application provides a response of exactly 64 blocks. */
  predicate Full(t: Read) {
    t.answer.Provides? && |t.answer.response| == 8 * READ_BLOCKS
  }

  // ---------- Where a run is: a has sent k frames, b has handled j of them, a has seen m replies ----------

  function Script(t: Read, from: nat, to: nat): seq<Packet>
    requires from <= to <= 2
  {
    [RequestPacket(t.a, t.job), StartPacket(t.a, t.job)][from..to]
  }

  function ReplyAt(t: Read, i: nat): Packet
    requires i == 0 || (Full(t) && i <= READ_BLOCKS)
  {
    if i == 0 then
      var kind := if Full(t) then GetKind.Ack else GetKind.Nack;
      Reply(t.b, t.a, kind, READ_BLOCKS - 1, FirstBytes(t.job.address))
    else Reply(t.b, t.a, GetKind.Transfer, i - 1, t.answer.response[8 * (i - 1)..8 * i])
  }

  /** How many replies b has given to j frames. */
  function Given(j: nat): nat {
    if j == 0 then 0 else if j == 1 then 1 else 1 + READ_BLOCKS
  }

  function Replies(t: Read, from: nat, to: nat): seq<Packet>
    requires from <= to <= 1 || (Full(t) && from <= to <= 1 + READ_BLOCKS)
  {
    seq(to - from, x requires 0 <= x < to - from => ReplyAt(t, from + x))
  }

  /** The record after the first i blocks of a response, before the last one. */
  function Filled(job: Job, response: seq<Byte>, i: nat): Pending
    requires |response| == 8 * READ_BLOCKS && i <= READ_BLOCKS
  {
    Granted(job).(waitingTransfers := true,
                  blocks := seq(READ_BLOCKS, j requires 0 <= j =>
                    if j < i && j < READ_BLOCKS then response[8 * j..8 * j + 8] else []),
                  received := seq(READ_BLOCKS, j => j < i))
  }

  lemma FilledStep(job: Job, response: seq<Byte>, i: nat)
    requires |response| == 8 * READ_BLOCKS && i < READ_BLOCKS
    ensures Stored(Filled(job, response, i), i, response[8 * i..8 * i + 8]) == Filled(job, response, i + 1)
    ensures AllBlocksReceived(Filled(job, response, i + 1).received) <==> i == READ_BLOCKS - 1
    ensures i == READ_BLOCKS - 1 ==> Flatten(Filled(job, response, i + 1).blocks) == response
  {
    assert !AllBlocksReceived(Filled(job, response, i + 1).received) <== i < READ_BLOCKS - 1 by {
      if i < READ_BLOCKS - 1 {
        assert !Filled(job, response, i + 1).received[READ_BLOCKS - 1];
      }
    }
    if i == READ_BLOCKS - 1 {
      assert Filled(job, response, READ_BLOCKS).blocks == Slices(response, READ_BLOCKS);
      SlicesRoundTrip(response, READ_BLOCKS);
    }
  }

  function Collected(t: Read, i: nat): Pending
    requires Full(t) && i <= READ_BLOCKS
  {
    if i < READ_BLOCKS then Filled(t.job, t.answer.response, i)
    else Filled(t.job, t.answer.response, i).(done := true, ok := true)
  }

  /** The calling thread's side. */
  ghost predicate CallerAt(t: Read, pc: Pc, node: Node, k: nat, m: nat) {
    && node.lastData == (if Full(t) && m == 1 + READ_BLOCKS then t.answer.response else t.earlier)
    && match pc
       case Begin => k == 0 && m == 0 && node.pending == CLEARED
       case SendRequest => k == 0 && m == 0 && node.pending == Claimed(t.job)
       case AwaitAck =>
         k == 1 && m <= 1
         && node.pending == if m == 0 then Claimed(t.job)
                            else if Full(t) then Granted(t.job) else Claimed(t.job).(done := true)
       case SendStart => Full(t) && k == 1 && m == 1 && node.pending == Filled(t.job, t.answer.response, 0)
       case AwaitTransfers => Full(t) && k == 2 && 1 <= m <= 1 + READ_BLOCKS && node.pending == Collected(t, m - 1)
       case Returned(r) =>
         && r == Full(t) && node.pending == CLEARED
         && k == (if r then 2 else 1) && m == (if r then 1 + READ_BLOCKS else 1)
  }

  ghost predicate ResponderAt(t: Read, b: Node, j: nat) {
    Full(t) && j >= 1 ==>
      var session := OpenSession(t.a, READ_BLOCKS - 1, FirstBytes(t.job.address), t.answer.response);
      SessionOf(b, t.a) == Some(session)
  }

  ghost predicate At(t: Read, s: Fifo, k: nat, j: nat, m: nat) {
    && t.job.address != [] && t.job.to == t.b
    && j <= k <= 2 && (k == 2 ==> Full(t)) && m <= Given(j)
    && CallerAt(t, s.pc, s.initiator, k, m)
    && ResponderAt(t, s.responder, j)
    && s.toB == Script(t, j, k)
    && s.toA == Replies(t, m, Given(j))
  }

  // ---------- One step ----------

  function SentAfter(pc: Pc, k: nat): nat {
    if pc.SendRequest? || pc.SendStart? then k + 1 else k
  }

  lemma ActStep(t: Read, s: Fifo, k: nat, j: nat, m: nat)
    requires At(t, s, k, j, m) && Enabled(s, Act)
    ensures At(t, Apply(t, s, Act), SentAfter(s.pc, k), j, m)
  {
    if s.pc.AwaitAck? && Full(t) {
      assert Collecting(Granted(t.job)) == Filled(t.job, t.answer.response, 0);
    }
    assert s.toB + [] == s.toB;
  }

  lemma OneMoreSlice(t: Read, k: nat)
    requires Full(t) && 0 < k <= READ_BLOCKS
    ensures var blocks := Slices(t.answer.response, READ_BLOCKS);
            Selected(t.b, t.a, blocks, ALL_BLOCKS, k) == Selected(t.b, t.a, blocks, ALL_BLOCKS, k - 1) + [ReplyAt(t, k)]
  {
    AllBlocksSelected(k - 1);
    assert Slices(t.answer.response, READ_BLOCKS)[k - 1] == t.answer.response[8 * (k - 1)..8 * k];
  }

  lemma OneMoreReply(t: Read, k: nat)
    requires Full(t) && 0 < k <= READ_BLOCKS
    ensures Replies(t, 1, 1 + k) == Replies(t, 1, k) + [ReplyAt(t, k)]
  {
  }

  /** A start frame that selects everything yields the whole response. */
  lemma {:induction false} EverySlice(t: Read, k: nat)
    requires Full(t) && k <= READ_BLOCKS
    ensures Selected(t.b, t.a, Slices(t.answer.response, READ_BLOCKS), ALL_BLOCKS, k) == Replies(t, 1, 1 + k)
  {
    if k == 0 {
      assert Replies(t, 1, 1) == [];
    } else {
      EverySlice(t, k - 1);
      OneMoreSlice(t, k);
      OneMoreReply(t, k);
    }
  }

  lemma ResponderStep(t: Read, s: Fifo, k: nat, j: nat, m: nat)
    requires At(t, s, k, j, m) && Enabled(s, AtResponder)
    ensures j < k && At(t, Apply(t, s, AtResponder), k, j + 1, m)
  {
    assert s.toB[1..] == Script(t, j + 1, k);
    if j == 0 {
      assert Replies(t, m, 0) + [ReplyAt(t, 0)] == Replies(t, m, 1);
    } else {
      EverySlice(t, READ_BLOCKS);
      assert Replies(t, m, 1) + Replies(t, 1, 1 + READ_BLOCKS) == Replies(t, m, 1 + READ_BLOCKS);
    }
  }

  lemma CallerHears(t: Read, pc: Pc, node: Node, k: nat, j: nat, m: nat)
    requires CallerAt(t, pc, node, k, m) && t.job.to == t.b && j <= k <= 2 && (k == 2 ==> Full(t)) && m < Given(j)
    ensures var p := ReplyAt(t, m);
            CallerAt(t, pc, React(t.a, node, t.b, p.msg, p.data, Declines).node, k, m + 1)
  {
    if m > 0 {
      FilledStep(t.job, t.answer.response, m - 1);
    }
  }

  lemma InitiatorStep(t: Read, s: Fifo, k: nat, j: nat, m: nat)
    requires At(t, s, k, j, m) && Enabled(s, AtInitiator)
    ensures m < Given(j) && At(t, Apply(t, s, AtInitiator), k, j, m + 1)
  {
    assert s.toA[0] == ReplyAt(t, m);
    assert s.toA[1..] == Replies(t, m + 1, Given(j));
    CallerHears(t, s.pc, s.initiator, k, j, m);
  }

  // ---------- Runs ----------

  function SectionsLeft(t: Read, pc: Pc): nat {
    match pc
    case Begin => if Full(t) then 5 else 3
    case SendRequest => if Full(t) then 4 else 2
    case AwaitAck => if Full(t) then 3 else 1
    case SendStart => 2
    case AwaitTransfers => 1
    case Returned(_) => 0
  }

  function Length(t: Read): nat {
    if Full(t) then 5 + 2 + 1 + READ_BLOCKS else 3 + 1 + 1
  }

  ghost predicate Steps(t: Read, states: seq<Fifo>, events: seq<Event>, i: nat)
    requires |states| == |events| + 1 && i < |events|
  {
    Enabled(states[i], events[i]) && states[i + 1] == Apply(t, states[i], events[i])
  }

  ghost predicate IsRun(t: Read, states: seq<Fifo>, events: seq<Event>) {
    && |states| == |events| + 1
    && Initial(t, states[0])
    && forall i :: 0 <= i < |events| ==> Steps(t, states, events, i)
  }

  /** An event moves the run on by one position and leaves one section, frame or reply less to come. */
  lemma OneStep(t: Read, s: Fifo, e: Event, k: nat, j: nat, m: nat) returns (k': nat, j': nat, m': nat)
    requires At(t, s, k, j, m) && Enabled(s, e)
    ensures var s' := Apply(t, s, e);
            && At(t, s', k', j', m')
            && j' + m' - SectionsLeft(t, s'.pc) == j + m - SectionsLeft(t, s.pc) + 1
  {
    k', j', m' := k, j, m;
    match e {
      case Act =>
        ActStep(t, s, k, j, m);
        k' := SentAfter(s.pc, k);
      case AtResponder =>
        ResponderStep(t, s, k, j, m);
        j' := j + 1;
      case AtInitiator =>
        InitiatorStep(t, s, k, j, m);
        m' := m + 1;
    }
  }

  lemma {:induction false} RunPosition(
      t: Read, states: seq<Fifo>, events: seq<Event>, i: nat) returns (k: nat, j: nat, m: nat)
    requires IsRun(t, states, events) && i < |states|
    ensures At(t, states[i], k, j, m)
    ensures i + SectionsLeft(t, states[i].pc) == SectionsLeft(t, Begin) + j + m
  {
    if i == 0 {
      k, j, m := 0, 0, 0;
    } else {
      k, j, m := RunPosition(t, states, events, i - 1);
      assert Steps(t, states, events, i - 1);
      k, j, m := OneStep(t, states[i - 1], events[i - 1], k, j, m);
    }
  }

  /** Nothing can happen any more. */
  ghost predicate Stuck(s: Fifo) {
    forall e :: !Enabled(s, e)
  }

  lemma StuckIsOver(t: Read, s: Fifo, k: nat, j: nat, m: nat)
    requires At(t, s, k, j, m) && Stuck(s)
    ensures s.pc.Returned? && s.toA == [] && s.toB == [] && j == k && m == Given(j)
  {
    assert !Enabled(s, AtResponder) && !Enabled(s, AtInitiator) && !Enabled(s, Act);
    assert |Script(t, j, k)| == 0 && |Replies(t, m, Given(j))| == 0;
  }

  /** b's session for a holds the first eight bytes of the block address and the response in its blocks. */
  predicate Serves(t: Read, session: Option<Session>)
    requires Full(t)
  {
    && session.Some?
    && session.value.address == t.job.address[..if |t.job.address| < 8 then |t.job.address| else 8]
    && session.value.numBlocks == READ_BLOCKS && session.value.blocks == Slices(t.answer.response, READ_BLOCKS)
  }

  /**
   * Completeness. Every run takes at most 72 events and can only end once the read has returned, true
   * exactly if the application provided 512 bytes, which then are the data; otherwise the earlier data is
   * kept. No frame is left, but unlike after a write b keeps the session of a read that succeeded.
   */
  lemma ReadCompletes(t: Read, states: seq<Fifo>, events: seq<Event>)
    requires IsRun(t, states, events)
    ensures |events| <= Length(t)
    ensures var end := states[|events|];
            && (end.pc.Returned? ==> end.pc.result == Full(t)
                                     && end.initiator.lastData == if Full(t) then t.answer.response else t.earlier)
            && (Stuck(end) ==>
                  && end.pc == Returned(Full(t)) && end.toA == [] && end.toB == []
                  && (Full(t) ==> Serves(t, SessionOf(end.responder, t.a))))
  {
    var end := states[|events|];
    var k, j, m := RunPosition(t, states, events, |events|);
    if Stuck(end) {
      StuckIsOver(t, end, k, j, m);
    }
  }
}
