/**
 * Writes, one straight after the other, over a bus that loses nothing and keeps frames in order. No wait
 * times out and every frame is taken for sending; otherwise the two nodes and the two queues run at any
 * relative speed. A write starts as soon as the previous one has returned, with that one's abort or the
 * acknowledgement of it possibly still on the bus.
 */
module SetBlockDelivery {
  import opened CanTypes
  import opened Codec
  import opened Blocks
  import opened SetBlockSpec
  import opened SetBlockOutcome

  /** What to write, and how the application at the other end answers if it is offered that payload. */
  datatype Task = Task(job: Job, answer: Answer)

  /** Node a writes to node b. */
  datatype Series = Series(a: Address, b: Address, tasks: seq<Task>)

  datatype Fifo = Fifo(
    index: nat,             // the task under way
    pc: Pc,
    initiator: Node,
    responder: Node,
    toB: seq<Packet>,
    toA: seq<Packet>,
    deliveries: seq<Delivery>,
    results: seq<bool>)     // of the tasks before

  datatype Event = Act | AtResponder | AtInitiator | Next

  /** A section runs; a waiting one only once its condition holds. */
  predicate Enabled(z: Series, s: Fifo, e: Event) {
    s.index < |z.tasks| &&
    match e
    case Act =>
      && WellPlaced(z.tasks[s.index].job, s.pc) && !s.pc.Returned?
      && (s.pc.AwaitAck? ==> s.initiator.pending.requestAcked || s.initiator.pending.done)
      && (s.pc.AwaitReport? ==> s.initiator.pending.reportReceived || s.initiator.pending.done)
    case AtResponder => s.toB != []
    case AtInitiator => s.toA != []
    case Next => s.pc.Returned? && s.index + 1 < |z.tasks|
  }

  function Apply(z: Series, s: Fifo, e: Event): Fifo
    requires Enabled(z, s, e)
  {
    match e
    case Act =>
      var m := Advance(z.a, z.tasks[s.index].job, s.pc, s.initiator.pending, true);
      s.(pc := m.pc, initiator := s.initiator.(pending := m.pending), toB := s.toB + m.sent)
    case AtResponder =>
      var p := s.toB[0];
      var r := React(z.b, s.responder, p.from, p.msg, p.data, z.tasks[s.index].answer);
      s.(responder := r.node, toB := s.toB[1..], toA := s.toA + r.replies, deliveries := s.deliveries + r.deliveries)
    case AtInitiator =>
      var p := s.toA[0];
      s.(initiator := React(z.a, s.initiator, p.from, p.msg, p.data, NoHandler).node, toA := s.toA[1..])
    case Next =>
      s.(index := s.index + 1, pc := Begin, results := s.results + [s.pc.result])
  }

  /** An address, and 1 to 512 bytes. */
  predicate Acceptable(job: Job) {
    job.address != [] && 1 <= |job.data| <= 512
  }

  predicate Proper(z: Series) {
    z.tasks != [] && forall i :: 0 <= i < |z.tasks| ==> Acceptable(z.tasks[i].job) && z.tasks[i].job.to == z.b
  }

  /** The first of some acceptable tasks is about to start; b may hold any old session. */
  ghost predicate Initial(z: Series, s: Fifo) {
    && Proper(z)
    && s.index == 0 && s.pc == Begin && s.initiator.pending == CLEARED
    && s.toA == [] && s.toB == [] && s.deliveries == [] && s.results == []
  }

  // ---------- One write of a series ----------

  /** lead is 1 if the abort of the write before counts as the first frame of this one. */
  datatype Write = Write(a: Address, b: Address, job: Job, answer: Answer, lead: nat)

  function WriteAt(z: Series, i: nat): Write
    requires i < |z.tasks|
  {
    Write(z.a, z.b, z.tasks[i].job, z.tasks[i].answer, if i == 0 then 0 else 1)
  }

  // Where a write is: a has sent k frames of its script, b has handled j, a has seen m replies.

  function Size(t: Write): nat {
    NumBlocks(t.job.data)
  }

  /** How many frames the script has. */
  function Length(t: Write): nat {
    t.lead + Size(t) + 3
  }

  predicate Fit(t: Write) {
    Admissible(t.job) && t.job.to == t.b && t.lead <= 1
  }

  function ScriptAt(t: Write, x: nat): Packet
    requires Fit(t) && x < Length(t)
  {
    if x < t.lead then AbortPacket(t.a, t.job)
    else if x == t.lead then RequestPacket(t.a, t.job)
    else if x <= t.lead + Size(t) then TransferPacket(t.a, t.job, x - t.lead - 1)
    else if x == t.lead + Size(t) + 1 then StatusPacket(t.a, t.job)
    else AbortPacket(t.a, t.job)
  }

  /** b's session for a after the request and j - 1 more frames. */
  function SessionAfter(t: Write, j: nat): Session
    requires Fit(t) && 1 <= j <= Size(t) + 2
  {
    SessionRecord(t.a, FirstBytes(t.job.address), Size(t),
                  seq(Size(t), i requires 0 <= i < Size(t) => if i + 1 < j then Chunk(t.job.data, i) else []),
                  true, j == Size(t) + 2 && Accepts(t.answer))
  }

  function FullReport(t: Write): Packet
    requires Fit(t)
  {
    ReportPacket(t.b, t.a, SessionAfter(t, Size(t) + 2))
  }

  function ReplyAt(t: Write, x: nat): Packet
    requires Fit(t) && x < Length(t)
  {
    if x == t.lead + Size(t) + 1 then FullReport(t)
    else Reply(t.b, t.a, SetKind.Ack, ScriptAt(t, x).msg.low6, ScriptAt(t, x).data)
  }

  function Script(t: Write, from: nat, to: nat): seq<Packet>
    requires Fit(t) && from <= to <= Length(t)
  {
    seq(to - from, x requires 0 <= x < to - from => ScriptAt(t, from + x))
  }

  function Replies(t: Write, from: nat, to: nat): seq<Packet>
    requires Fit(t) && from <= to <= Length(t)
  {
    seq(to - from, x requires 0 <= x < to - from => ReplyAt(t, from + x))
  }

  function Reported(t: Write): Pending
    requires Fit(t)
  {
    Armed(t.job).(reportReceived := true, ok := true, done := Accepts(t.answer), bitmap := FullReport(t).data)
  }

  /** The calling thread's side. The acknowledgement of an earlier abort may pass for that of the request. */
  ghost predicate CallerAt(t: Write, pc: Pc, p: Pending, k: nat, m: nat)
    requires Fit(t)
  {
    var sent := t.lead + Size(t);
    match pc
    case Begin => k == t.lead && p == CLEARED
    case SendRequest => k == t.lead && (p == Claimed(t.job) || (p == Granted(t.job) && m >= 1))
    case AwaitAck => k == t.lead + 1 && ((p == Claimed(t.job) && m <= t.lead) || (p == Granted(t.job) && m >= 1))
    case SendBlock(i) => k == t.lead + i + 1 && i < Size(t) && p == Granted(t.job)
    case ArmReport => k == sent + 1 && p == Granted(t.job)
    case SendStatus => k == sent + 1 && p == Armed(t.job)
    case AwaitReport => k == sent + 2 && p == if m <= sent + 1 then Armed(t.job) else Reported(t)
    case SendAbort(r) => k == sent + 2 && m == sent + 2 && p == CLEARED && r == Accepts(t.answer)
    case Returned(r) => k == sent + 3 && m >= sent + 2 && p == CLEARED && r == Accepts(t.answer)
  }

  function Offer(t: Write): Delivery {
    Delivery(t.a, Padded(t.job.data), (t.answer != Answered(false)))
  }

  ghost predicate ResponderAt(t: Write, b: Node, deliveries: seq<Delivery>, earlier: seq<Delivery>, j: nat)
    requires Fit(t) && j <= Length(t)
  {
    && (t.lead < j < Length(t) ==> SessionOf(b, t.a) == Some(SessionAfter(t, j - t.lead)))
    && (j == Length(t) ==> SessionOf(b, t.a) == None)
    && deliveries == if j >= Length(t) - 1 then earlier + [Offer(t)] else earlier
  }

  ghost predicate At(t: Write, s: Fifo, earlier: seq<Delivery>, k: nat, j: nat, m: nat) {
    && Fit(t)
    && m <= j <= k <= Length(t)
    && CallerAt(t, s.pc, s.initiator.pending, k, m)
    && ResponderAt(t, s.responder, s.deliveries, earlier, j)
    && s.toB == Script(t, j, k)
    && s.toA == Replies(t, m, j)
  }

  // ---------- The queues ----------

  lemma ScriptFirst(t: Write, j: nat, k: nat)
    requires Fit(t) && j < k <= Length(t)
    ensures Script(t, j, k)[0] == ScriptAt(t, j) && Script(t, j, k)[1..] == Script(t, j + 1, k)
  {
  }

  lemma ScriptLast(t: Write, j: nat, k: nat)
    requires Fit(t) && j <= k < Length(t)
    ensures Script(t, j, k + 1) == Script(t, j, k) + [ScriptAt(t, k)]
  {
  }

  lemma RepliesFirst(t: Write, m: nat, j: nat)
    requires Fit(t) && m < j <= Length(t)
    ensures Replies(t, m, j)[0] == ReplyAt(t, m) && Replies(t, m, j)[1..] == Replies(t, m + 1, j)
  {
  }

  lemma RepliesLast(t: Write, m: nat, j: nat)
    requires Fit(t) && m <= j < Length(t)
    ensures Replies(t, m, j + 1) == Replies(t, m, j) + [ReplyAt(t, j)]
  {
  }

  // ---------- One step ----------

  /** The report of a session that has every block carries every bit. */
  lemma CompleteReport(me: Address, to: Address, s: Session)
    requires forall i: nat :: i < s.numBlocks ==> s.blocks[i] != []
    ensures AllBitsSet(ReportPacket(me, to, s).data, s.numBlocks) && ReportPacket(me, to, s).msg.done == s.done
  {
    forall i: nat | i < s.numBlocks
      ensures BitmapBitIsSet(ReportPacket(me, to, s).data, i)
    {
      assert s.blocks[i] != [];
      ReportBits(me, to, s);
    }
  }

  lemma FullReportBits(t: Write)
    requires Fit(t)
    ensures FullReport(t).msg.kind.Report? && FullReport(t).msg.done == Accepts(t.answer)
    ensures AllBitsSet(FullReport(t).data, Size(t))
  {
    var s := SessionAfter(t, Size(t) + 2);
    assert forall i: nat :: i < Size(t) ==> s.blocks[i] == Chunk(t.job.data, i);
    CompleteReport(t.b, t.a, s);
  }

  /** Number of script frames sent once the section that leaves pc has run. */
  function SentAfter(pc: Pc, k: nat): nat {
    if pc.SendRequest? || pc.SendBlock? || pc.SendStatus? || pc.SendAbort? then k + 1 else k
  }

  lemma CallerActs(t: Write, pc: Pc, p: Pending, k: nat, m: nat)
    requires Fit(t) && k <= Length(t) && CallerAt(t, pc, p, k, m) && !pc.Returned? && WellPlaced(t.job, pc)
    requires m <= k
    requires pc.AwaitAck? ==> p.requestAcked || p.done
    requires pc.AwaitReport? ==> p.reportReceived || p.done
    ensures var move := Advance(t.a, t.job, pc, p, true);
            && CallerAt(t, move.pc, move.pending, SentAfter(pc, k), m)
            && SentAfter(pc, k) <= Length(t)
            && move.sent == if SentAfter(pc, k) == k + 1 then [ScriptAt(t, k)] else []
  {
    FullReportBits(t);
  }

  lemma ActStep(z: Series, s: Fifo, earlier: seq<Delivery>, k: nat, j: nat, m: nat)
    requires s.index < |z.tasks|
    requires At(WriteAt(z, s.index), s, earlier, k, j, m) && Enabled(z, s, Act)
    ensures At(WriteAt(z, s.index), Apply(z, s, Act), earlier, SentAfter(s.pc, k), j, m)
  {
    var t := WriteAt(z, s.index);
    CallerActs(t, s.pc, s.initiator.pending, k, m);
    if SentAfter(s.pc, k) == k + 1 {
      ScriptLast(t, j, k);
    } else {
      assert s.toB + [] == s.toB;
    }
  }

  lemma TransferHandled(t: Write, j: nat)
    requires Fit(t) && 1 <= j <= Size(t)
    ensures Store(SessionAfter(t, j), j - 1, Chunk(t.job.data, j - 1)) == SessionAfter(t, j + 1)
  {
  }

  ghost predicate Handled(t: Write, b: Node, deliveries: seq<Delivery>, earlier: seq<Delivery>, j: nat)
    requires Fit(t) && j < Length(t)
  {
    var p := ScriptAt(t, j);
    var r := React(t.b, b, t.a, p.msg, p.data, t.answer);
    ResponderAt(t, r.node, deliveries + r.deliveries, earlier, j + 1) && r.replies == [ReplyAt(t, j)]
  }

  lemma ResponderHandlesBlock(t: Write, b: Node, deliveries: seq<Delivery>, earlier: seq<Delivery>, j: nat)
    requires Fit(t) && t.lead < j <= t.lead + Size(t) && ResponderAt(t, b, deliveries, earlier, j)
    ensures Handled(t, b, deliveries, earlier, j)
  {
    assert deliveries + [] == deliveries;
    TransferHandled(t, j - t.lead);
  }

  lemma ResponderHandlesRequest(t: Write, b: Node, deliveries: seq<Delivery>, earlier: seq<Delivery>)
    requires Fit(t) && ResponderAt(t, b, deliveries, earlier, t.lead)
    ensures Handled(t, b, deliveries, earlier, t.lead)
  {
    assert deliveries + [] == deliveries;
    assert OpenSession(t.a, Size(t) - 1, FirstBytes(t.job.address)) == SessionAfter(t, 1);
  }

  lemma StatusHandled(t: Write)
    requires Fit(t)
    ensures var s := SessionAfter(t, Size(t) + 1);
            Assembled(s) == Padded(t.job.data) && Assembled(s) != []
                && Settle(s, t.answer) == SessionAfter(t, Size(t) + 2)
  {
    var s := SessionAfter(t, Size(t) + 1);
    assert s.blocks == Chunks(t.job.data);
    ChunksRoundTrip(t.job.data);
    AssembledNonEmpty(s);
  }

  lemma ResponderHandles(t: Write, b: Node, deliveries: seq<Delivery>, earlier: seq<Delivery>, j: nat)
    requires Fit(t) && j < Length(t) && ResponderAt(t, b, deliveries, earlier, j)
    ensures Handled(t, b, deliveries, earlier, j)
  {
    assert deliveries + [] == deliveries;
    if j == t.lead {
      ResponderHandlesRequest(t, b, deliveries, earlier);
    } else if t.lead < j <= t.lead + Size(t) {
      ResponderHandlesBlock(t, b, deliveries, earlier, j);
    } else if j == t.lead + Size(t) + 1 {
      StatusHandled(t);
    }
  }

  /** Only the status request makes b deliver, and then the padded data. */
  lemma ResponderDelivers(t: Write, b: Node, deliveries: seq<Delivery>, earlier: seq<Delivery>, j: nat)
    requires Fit(t) && j < Length(t) && ResponderAt(t, b, deliveries, earlier, j)
    ensures var p := ScriptAt(t, j);
            React(t.b, b, t.a, p.msg, p.data, t.answer).deliveries == if j == Length(t) - 2 then [Offer(t)] else []
  {
    if j == Length(t) - 2 {
      StatusHandled(t);
    }
  }

  lemma ResponderStep(z: Series, s: Fifo, earlier: seq<Delivery>, k: nat, j: nat, m: nat)
    requires s.index < |z.tasks|
    requires At(WriteAt(z, s.index), s, earlier, k, j, m) && Enabled(z, s, AtResponder)
    ensures j < k && At(WriteAt(z, s.index), Apply(z, s, AtResponder), earlier, k, j + 1, m)
  {
    var t := WriteAt(z, s.index);
    ScriptFirst(t, j, k);
    ResponderHandles(t, s.responder, s.deliveries, earlier, j);
    RepliesLast(t, m, j);
  }

  /** One more reply. While the request is under way it is an acknowledgement, whatever it answers. */
  lemma CallerHears(t: Write, pc: Pc, p: Pending, k: nat, m: nat)
    requires Fit(t) && CallerAt(t, pc, p, k, m) && m < k <= Length(t)
    ensures var q := ReplyAt(t, m); CallerAt(t, pc, Note(p, t.b, q.msg, q.data), k, m + 1)
  {
    FullReportBits(t);
  }

  lemma ReplyIsNoted(t: Write, a: Node, m: nat)
    requires Fit(t) && m < Length(t)
    ensures var q := ReplyAt(t, m);
            q.from == t.b && React(t.a, a, t.b, q.msg, q.data, NoHandler).node
                == a.(pending := Note(a.pending, t.b, q.msg, q.data))
  {
    FullReportBits(t);
  }

  lemma InitiatorStep(z: Series, s: Fifo, earlier: seq<Delivery>, k: nat, j: nat, m: nat)
    requires s.index < |z.tasks|
    requires At(WriteAt(z, s.index), s, earlier, k, j, m) && Enabled(z, s, AtInitiator)
    ensures m < j && At(WriteAt(z, s.index), Apply(z, s, AtInitiator), earlier, k, j, m + 1)
  {
    var t := WriteAt(z, s.index);
    RepliesFirst(t, m, j);
    ReplyIsNoted(t, s.initiator, m);
    CallerHears(t, s.pc, s.initiator.pending, k, m);
  }

  /** The next write takes over what is left of this one: its abort, or the acknowledgement of that. */
  lemma NextStep(z: Series, s: Fifo, earlier: seq<Delivery>, k: nat, j: nat, m: nat)
    requires Proper(z) && s.index < |z.tasks|
    requires At(WriteAt(z, s.index), s, earlier, k, j, m) && Enabled(z, s, Next)
    ensures var past := Length(WriteAt(z, s.index)) - 1;
            && k == past + 1 && m >= past
            && At(WriteAt(z, s.index + 1), Apply(z, s, Next), s.deliveries, 1, j - past, m - past)
            && s.deliveries == earlier + [Offer(WriteAt(z, s.index))]
  {
    var t, u := WriteAt(z, s.index), WriteAt(z, s.index + 1);
    var past := Length(t) - 1;
    assert ScriptAt(t, past) == ScriptAt(u, 0) && ReplyAt(t, past) == ReplyAt(u, 0);
    assert Script(t, j, k) == Script(u, j - past, 1);
    assert Replies(t, m, j) == Replies(u, m - past, j - past);
  }

  // ---------- Runs ----------

  /** How many sections are left from here. */
  function SectionsLeft(t: Write, pc: Pc): int {
    match pc
    case Begin => Size(t) + 7
    case SendRequest => Size(t) + 6
    case AwaitAck => Size(t) + 5
    case SendBlock(i) => Size(t) - i + 4
    case ArmReport => 4
    case SendStatus => 3
    case AwaitReport => 2
    case SendAbort(_) => 1
    case Returned(_) => 0
  }

  /** Events that the tasks from i on take by themselves, with the step to each. */
  function Later(z: Series, i: nat): nat
    requires i <= |z.tasks|
    decreases |z.tasks| - i
  {
    if i == |z.tasks| then 0 else 1 + 3 * NumBlocks(z.tasks[i].job.data) + 13 + Later(z, i + 1)
  }

  function Remaining(z: Series, s: Fifo, j: nat, m: nat): int
    requires s.index < |z.tasks|
  {
    var t := WriteAt(z, s.index);
    (Length(t) - j) + (Length(t) - m) + SectionsLeft(t, s.pc) + Later(z, s.index + 1)
  }

  /** The payloads of the first i tasks, as the application is offered them. */
  function Offered(z: Series, i: nat): (ds: seq<Delivery>)
    requires i <= |z.tasks|
    ensures |ds| == i
  {
    seq(i, x requires 0 <= x < i => Offer(WriteAt(z, x)))
  }

  function Verdicts(z: Series, i: nat): (rs: seq<bool>)
    requires i <= |z.tasks|
    ensures |rs| == i
  {
    seq(i, x requires 0 <= x < i => (z.tasks[x].answer != Answered(false)))
  }

  ghost predicate Along(z: Series, s: Fifo, k: nat, j: nat, m: nat) {
    && Proper(z) && s.index < |z.tasks|
    && At(WriteAt(z, s.index), s, Offered(z, s.index), k, j, m)
    && WellPlaced(z.tasks[s.index].job, s.pc)
    && s.results == Verdicts(z, s.index)
  }

  ghost predicate Steps(z: Series, states: seq<Fifo>, events: seq<Event>, i: nat)
    requires |states| == |events| + 1 && i < |events|
  {
    Enabled(z, states[i], events[i]) && states[i + 1] == Apply(z, states[i], events[i])
  }

  ghost predicate IsRun(z: Series, states: seq<Fifo>, events: seq<Event>) {
    && |states| == |events| + 1
    && Initial(z, states[0])
    && forall i :: 0 <= i < |events| ==> Steps(z, states, events, i)
  }

  // One lemma per event: the run moves on by one position, and one event less is to come.

  lemma ActAlong(z: Series, s: Fifo, e: Event, k: nat, j: nat, m: nat)
    requires e.Act? && Along(z, s, k, j, m) && Enabled(z, s, e)
    ensures Along(z, Apply(z, s, e), SentAfter(s.pc, k), j, m)
    ensures Remaining(z, Apply(z, s, e), j, m) + 1 == Remaining(z, s, j, m)
  {
    ActStep(z, s, Offered(z, s.index), k, j, m);
  }

  lemma ResponderAlong(z: Series, s: Fifo, e: Event, k: nat, j: nat, m: nat)
    requires e.AtResponder? && Along(z, s, k, j, m) && Enabled(z, s, e)
    ensures Along(z, Apply(z, s, e), k, j + 1, m)
    ensures Remaining(z, Apply(z, s, e), j + 1, m) + 1 == Remaining(z, s, j, m)
  {
    ResponderStep(z, s, Offered(z, s.index), k, j, m);
  }

  lemma InitiatorAlong(z: Series, s: Fifo, e: Event, k: nat, j: nat, m: nat)
    requires e.AtInitiator? && Along(z, s, k, j, m) && Enabled(z, s, e)
    ensures Along(z, Apply(z, s, e), k, j, m + 1)
    ensures Remaining(z, Apply(z, s, e), j, m + 1) + 1 == Remaining(z, s, j, m)
  {
    InitiatorStep(z, s, Offered(z, s.index), k, j, m);
  }

  lemma OneMore(z: Series, i: nat)
    requires i < |z.tasks|
    ensures Offered(z, i + 1) == Offered(z, i) + [Offer(WriteAt(z, i))]
    ensures Verdicts(z, i + 1) == Verdicts(z, i) + [Accepts(z.tasks[i].answer)]
  {
  }

  lemma NextAlong(z: Series, s: Fifo, e: Event, k: nat, j: nat, m: nat) returns (j': nat, m': nat)
    requires e.Next? && Along(z, s, k, j, m) && Enabled(z, s, e)
    ensures Along(z, Apply(z, s, e), 1, j', m')
    ensures Remaining(z, Apply(z, s, e), j', m') + 1 == Remaining(z, s, j, m)
  {
    NextStep(z, s, Offered(z, s.index), k, j, m);
    var past := Length(WriteAt(z, s.index)) - 1;
    j', m' := j - past, m - past;
    OneMore(z, s.index);
  }

  lemma OneStep(z: Series, s: Fifo, e: Event, k: nat, j: nat, m: nat) returns (k': nat, j': nat, m': nat)
    requires Along(z, s, k, j, m) && Enabled(z, s, e)
    ensures Along(z, Apply(z, s, e), k', j', m')
    ensures Remaining(z, Apply(z, s, e), j', m') + 1 == Remaining(z, s, j, m)
  {
    k', j', m' := k, j, m;
    match e {
      case Act =>
        ActAlong(z, s, e, k, j, m);
        k' := SentAfter(s.pc, k);
      case AtResponder =>
        ResponderAlong(z, s, e, k, j, m);
        j' := j + 1;
      case AtInitiator =>
        InitiatorAlong(z, s, e, k, j, m);
        m' := m + 1;
      case Next =>
        k' := 1;
        j', m' := NextAlong(z, s, e, k, j, m);
    }
  }

  lemma StartAlong(z: Series, s: Fifo)
    requires Initial(z, s)
    ensures Along(z, s, 0, 0, 0) && Remaining(z, s, 0, 0) + 1 == Later(z, 0)
  {
    assert At(WriteAt(z, 0), s, [], 0, 0, 0);
  }

  /** After i events the run is at this position, and so many events are left. */
  ghost predicate Stands(z: Series, s: Fifo, i: nat, k: nat, j: nat, m: nat) {
    Along(z, s, k, j, m) && i + Remaining(z, s, j, m) + 1 == Later(z, 0)
  }

  lemma StartStands(z: Series, s: Fifo)
    requires Initial(z, s)
    ensures Stands(z, s, 0, 0, 0, 0)
  {
    StartAlong(z, s);
  }

  lemma StepStands(z: Series, s: Fifo, e: Event, i: nat, k: nat, j: nat, m: nat) returns (k': nat, j': nat, m': nat)
    requires Stands(z, s, i, k, j, m) && Enabled(z, s, e)
    ensures Stands(z, Apply(z, s, e), i + 1, k', j', m')
  {
    k', j', m' := OneStep(z, s, e, k, j, m);
  }

  lemma {:induction false} RunPosition(z: Series, states: seq<Fifo>, events: seq<Event>, i: nat)
    returns (k: nat, j: nat, m: nat)
    requires IsRun(z, states, events) && i < |states|
    ensures Stands(z, states[i], i, k, j, m)
  {
    if i == 0 {
      k, j, m := 0, 0, 0;
      StartStands(z, states[0]);
    } else {
      k, j, m := RunPosition(z, states, events, i - 1);
      assert Steps(z, states, events, i - 1);
      k, j, m := StepStands(z, states[i - 1], events[i - 1], i - 1, k, j, m);
    }
  }

  /** What b delivers when it handles the next frame. */
  function NextDeliveries(z: Series, s: Fifo): seq<Delivery>
    requires s.toB != [] && s.index < |z.tasks|
  {
    var p := s.toB[0];
    React(z.b, s.responder, p.from, p.msg, p.data, z.tasks[s.index].answer).deliveries
  }

  /** If b delivers, it delivers the payload of the task under way, after those of the tasks before. */
  lemma NextOffer(z: Series, s: Fifo, k: nat, j: nat, m: nat)
    requires Along(z, s, k, j, m) && s.toB != []
    ensures var ds := NextDeliveries(z, s);
            ds == [] || (|s.deliveries| == s.index && ds == [Offer(WriteAt(z, s.index))])
  {
    var t := WriteAt(z, s.index);
    ScriptFirst(t, j, k);
    ResponderDelivers(t, s.responder, s.deliveries, Offered(z, s.index), j);
  }

  /** Nothing can happen any more. */
  ghost predicate Stuck(z: Series, s: Fifo) {
    forall e :: !Enabled(z, s, e)
  }

  lemma StuckIsOver(z: Series, s: Fifo, k: nat, j: nat, m: nat)
    requires Along(z, s, k, j, m) && Stuck(z, s)
    ensures s.index == |z.tasks| - 1 && s.pc.Returned? && s.toA == [] && s.toB == []
        && SessionOf(s.responder, z.a) == None
  {
    var t := WriteAt(z, s.index);
    assert !Enabled(z, s, AtResponder) && !Enabled(z, s, AtInitiator) && !Enabled(z, s, Act) && !Enabled(z, s, Next);
    assert |Script(t, j, k)| == 0 && |Replies(t, m, j)| == 0;
    assert m == j == k;
  }

  /**
   * Completeness. Writes made back to back each return true exactly if the application takes the padded data,
   * which it is offered exactly once, in order. Every run takes at most one event for each step between two
   * writes and 3n + 13 for a write of n blocks, and can only end once all writes have returned, with no frame
   * left and no session at b.
   */
  lemma SeriesCompletes(z: Series, states: seq<Fifo>, events: seq<Event>)
    requires IsRun(z, states, events)
    ensures |events| < Later(z, 0)
    ensures var end := states[|events|];
            && end.index < |z.tasks| && end.results == Verdicts(z, end.index)
            && (end.pc.Returned? ==> end.pc.result == (z.tasks[end.index].answer != Answered(false))
                                     && end.deliveries == Offered(z, end.index + 1))
            && (Stuck(z, end) ==> end.index == |z.tasks| - 1 && end.pc.Returned?
                                  && end.toA == [] && end.toB == [] && SessionOf(end.responder, z.a) == None)
  {
    var end := states[|events|];
    var k, j, m := RunPosition(z, states, events, |events|);
    OneMore(z, end.index);
    if Stuck(z, end) {
      StuckIsOver(z, end, k, j, m);
    }
  }

  /** When the report has come, b's session holds the first eight bytes of the block address and every block. */
  lemma SessionWhenReported(z: Series, s: Fifo, k: nat, j: nat, m: nat)
    requires Along(z, s, k, j, m) && s.pc.SendAbort?
    ensures var job := z.tasks[s.index].job;
            var session := SessionOf(s.responder, z.a);
            && session.Some? && session.value.numBlocks == (|job.data| + 7) / 8
            && session.value.address == job.address[..if |job.address| < 8 then |job.address| else 8]
            && Flatten(session.value.blocks) == Padded(job.data)
  {
    var t := WriteAt(z, s.index);
    assert SessionOf(s.responder, z.a) == Some(SessionAfter(t, Size(t) + 2));
    assert SessionAfter(t, Size(t) + 2).blocks == Chunks(t.job.data);
    ChunksRoundTrip(t.job.data);
  }

  /** In particular for a single write of n blocks: at most 3n + 13 events. */
  lemma WriteCompletes(a: Address, job: Job, answer: Answer, states: seq<Fifo>, events: seq<Event>)
    requires IsRun(Series(a, job.to, [Task(job, answer)]), states, events)
    ensures |events| <= 3 * NumBlocks(job.data) + 13
    ensures var end := states[|events|];
            && (end.pc.Returned? ==> end.pc.result == (answer != Answered(false))
                                     && end.deliveries == [Delivery(a, Padded(job.data), (answer != Answered(false)))])
            && (Stuck(Series(a, job.to, [Task(job, answer)]), end) ==>
                  end.pc == Returned((answer != Answered(false))) && end.toA == [] && end.toB == []
                      && SessionOf(end.responder, a) == None)
  {
    var z := Series(a, job.to, [Task(job, answer)]);
    SeriesCompletes(z, states, events);
    assert Later(z, 1) == 0;
    assert Offered(z, 1) == [Offer(WriteAt(z, 0))];
  }
}
