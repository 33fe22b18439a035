/** Exactly when a write returns true, in terms of the frames its node receives while it runs. */
module SetBlockOutcome {
  import opened CanTypes
  import opened Codec
  import opened Blocks
  import opened SetBlockSpec
  import opened SetBlockRun

  // ---------- The pending record under a batch of frames ----------

  function NoteAll(p: Pending, batch: seq<Inbound>): Pending {
    if batch == [] then p
    else
      var m := batch[|batch| - 1];
      Note(NoteAll(p, batch[..|batch| - 1]), m.from, m.msg, m.data)
  }

  lemma {:induction false} AbsorbNotes(me: Address, node: Node, batch: seq<Inbound>)
    ensures Absorb(me, node, batch).pending == NoteAll(node.pending, batch)
  {
    if batch != [] {
      AbsorbNotes(me, node, batch[..|batch| - 1]);
    }
  }

  lemma {:induction false} NoteAllConcat(p: Pending, b1: seq<Inbound>, b2: seq<Inbound>)
    ensures NoteAll(p, b1 + b2) == NoteAll(NoteAll(p, b1), b2)
  {
    if b2 == [] {
      assert b1 + b2 == b1;
    } else {
      assert (b1 + b2)[..|b1 + b2| - 1] == b1 + b2[..|b2| - 1];
      NoteAllConcat(p, b1, b2[..|b2| - 1]);
    }
  }

  /** Outside the two waiting phases no frame touches the record. */
  lemma {:induction false} NotWaiting(p: Pending, batch: seq<Inbound>)
    requires !p.active || (!p.waitingRequestAck && !p.waitingReport)
    ensures NoteAll(p, batch) == p
  {
    if batch != [] {
      NotWaiting(p, batch[..|batch| - 1]);
    }
  }

  // ---------- What decides each phase ----------

  /** The first acknowledgement or refusal by the peer: Some(true), Some(false), or none yet. */
  function FirstAnswer(batch: seq<Inbound>, peer: Address): Option<bool> {
    if batch == [] then None
    else
      var m := batch[|batch| - 1];
      match FirstAnswer(batch[..|batch| - 1], peer)
      case Some(b) => Some(b)
      case None => if m.from == peer && m.msg.kind.Ack? then Some(true)
                   else if m.from == peer && m.msg.kind.Nack? then Some(false) else None
  }

  /** The last report or refusal by the peer. */
  function LastVerdict(batch: seq<Inbound>, peer: Address): Option<Inbound> {
    if batch == [] then None
    else
      var m := batch[|batch| - 1];
      if m.from == peer && (m.msg.kind.Report? || m.msg.kind.Nack?) then Some(m)
      else LastVerdict(batch[..|batch| - 1], peer)
  }

  predicate Confirms(verdict: Option<Inbound>, n: nat) {
    verdict.Some? && verdict.value.msg.kind.Report? && verdict.value.msg.done && AllBitsSet(verdict.value.data, n)
  }

  function Granted(job: Job): Pending {
    Claimed(job).(requestAcked := true, waitingRequestAck := false)
  }

  lemma {:induction false} FirstAnswerDecides(job: Job, batch: seq<Inbound>)
    ensures var p := NoteAll(Claimed(job), batch);
            match FirstAnswer(batch, job.to)
            case None => p == Claimed(job)
            case Some(true) => p == Granted(job)
            case Some(false) => p.done && !p.waitingReport
  {
    if batch != [] {
      FirstAnswerDecides(job, batch[..|batch| - 1]);
    }
  }

  lemma {:induction false} LastVerdictDecides(job: Job, batch: seq<Inbound>)
    ensures var p := NoteAll(Granted(job).(waitingReport := true), batch);
            && p.active && p.peer == job.to && p.waitingReport && !p.waitingRequestAck
            && match LastVerdict(batch, job.to)
               case None => p == Granted(job).(waitingReport := true)
               case Some(m) =>
                 if m.msg.kind.Nack? then !p.ok
                 else m.msg.kind.Report? && p.ok && p.reportReceived && p.done == m.msg.done && p.bitmap == m.data
  {
    if batch != [] {
      LastVerdictDecides(job, batch[..|batch| - 1]);
    }
  }

  // ---------- The run, stage by stage ----------

  predicate BlocksTaken(sched: Schedule, k: nat) {
    k == 0 || (BlocksTaken(sched, k - 1) && sched(2 + k).sendOk)
  }

  /** Everything that makes a write succeed. */
  ghost predicate Succeeds(job: Job, sched: Schedule) {
    var n := NumBlocks(job.data);
    && Admissible(job)
    && Agreed(job, sched)
    && BlocksTaken(sched, n)
    && sched(n + 4).sendOk
    && Confirms(LastVerdict(sched(n + 4).inbound + sched(n + 5).inbound, job.to), n)
  }

  function Transfers(me: Address, job: Job, k: nat): seq<Packet>
    requires Admissible(job) && k <= NumBlocks(job.data)
  {
    if k == 0 then [] else Transfers(me, job, k - 1) + [TransferPacket(me, job, k - 1)]
  }

  /** The frames of a write, in order. */
  function Script(me: Address, job: Job): seq<Packet>
    requires Admissible(job)
  {
    SentSoFar(me, job, NumBlocks(job.data)) + [StatusPacket(me, job)]
  }

  /**
   * A write spelled out: the request with the number of blocks less one and the first eight bytes of the block
   * address, the padded data in numbered pieces of eight bytes, and the status request.
   */
  ghost predicate Spells(me: Address, to: Address, address: seq<Byte>, data: seq<Byte>, ps: seq<Packet>) {
    var n := (|data| + 7) / 8;
    && 1 <= n <= 64 && |ps| == n + 2
    && ps[0] == Packet(to, me, SetMsg(SetKind.Request, n - 1, false), address[..if |address| < 8 then |address| else 8])
    && (forall i: nat :: i < n ==>
          ps[i + 1] == Packet(to, me, SetMsg(SetKind.Transfer, i, false), Padded(data)[8 * i..8 * i + 8]))
    && ps[n + 1] == Packet(to, me, SetMsg(SetKind.StatusRequest, 0, false), [])
  }

  lemma {:induction false} TransfersInOrder(me: Address, job: Job, k: nat)
    requires Admissible(job) && k <= NumBlocks(job.data)
    ensures |Transfers(me, job, k)| == k
    ensures forall i: nat :: i < k ==>
              Transfers(me, job, k)[i]
                  == Packet(job.to, me, SetMsg(SetKind.Transfer, i, false), Padded(job.data)[8 * i..8 * i + 8])
  {
    if k > 0 {
      TransfersInOrder(me, job, k - 1);
      assert Chunk(job.data, k - 1) == Padded(job.data)[8 * (k - 1)..8 * (k - 1) + 8];
    }
  }

  lemma ScriptSpells(me: Address, job: Job)
    requires Admissible(job)
    ensures Spells(me, job.to, job.address, job.data, Script(me, job))
  {
    TransfersInOrder(me, job, NumBlocks(job.data));
  }

  ghost predicate Failed(c: Config) {
    c.pc == Returned(false) && c.node.pending == CLEARED
  }

  ghost predicate Reached(c: Config, pc: Pc, p: Pending, sent: seq<Packet>) {
    c.pc == pc && c.node.pending == p && c.sent == sent
  }

  // One lemma per atomic section.

  lemma ClaimSection(me: Address, job: Job, node: Node, slot: Slot)
    requires node.pending == CLEARED
    ensures var c := Section(me, job, Config(Begin, node, []), slot);
            if Admissible(job) then Reached(c, SendRequest, Claimed(job), []) else Failed(c)
  {
    AbsorbNotes(me, node, slot.inbound);
    NotWaiting(CLEARED, slot.inbound);
  }

  lemma RequestSection(me: Address, job: Job, c: Config, slot: Slot)
    requires Admissible(job) && Reached(c, SendRequest, Claimed(job), [])
    ensures var d := Section(me, job, c, slot);
            if slot.sendOk
            then Reached(d, AwaitAck, NoteAll(Claimed(job), slot.inbound), [RequestPacket(me, job)])
            else Failed(d)
  {
    AbsorbNotes(me, c.node, slot.inbound);
  }

  lemma AwaitAckSection(me: Address, job: Job, c: Config, before: seq<Inbound>, slot: Slot, sent: seq<Packet>)
    requires Admissible(job) && Reached(c, AwaitAck, NoteAll(Claimed(job), before), sent)
    ensures var d := Section(me, job, c, slot);
            if FirstAnswer(before + slot.inbound, job.to) == Some(true)
            then Reached(d, SendBlock(0), Granted(job), sent)
            else Failed(d)
  {
    AbsorbNotes(me, c.node, slot.inbound);
    NoteAllConcat(Claimed(job), before, slot.inbound);
    FirstAnswerDecides(job, before + slot.inbound);
  }

  function SentSoFar(me: Address, job: Job, k: nat): seq<Packet>
    requires Admissible(job) && k <= NumBlocks(job.data)
  {
    [RequestPacket(me, job)] + Transfers(me, job, k)
  }

  lemma BlockSection(me: Address, job: Job, c: Config, i: nat, slot: Slot)
    requires Admissible(job) && i < NumBlocks(job.data) && Reached(c, SendBlock(i), Granted(job), SentSoFar(me, job, i))
    ensures var d := Section(me, job, c, slot);
            if slot.sendOk
            then Reached(d, AfterBlock(job, i), Granted(job), SentSoFar(me, job, i + 1))
            else Failed(d)
  {
    AbsorbNotes(me, c.node, slot.inbound);
    NotWaiting(Granted(job), slot.inbound);
    assert SentSoFar(me, job, i) + [TransferPacket(me, job, i)] == SentSoFar(me, job, i + 1);
  }

  function Armed(job: Job): Pending {
    Granted(job).(waitingReport := true)
  }

  lemma ArmSection(me: Address, job: Job, c: Config, slot: Slot, sent: seq<Packet>)
    requires Admissible(job) && Reached(c, ArmReport, Granted(job), sent)
    ensures Reached(Section(me, job, c, slot), SendStatus, Armed(job), sent)
  {
    AbsorbNotes(me, c.node, slot.inbound);
    NotWaiting(Granted(job), slot.inbound);
  }

  lemma StatusSection(me: Address, job: Job, c: Config, slot: Slot, sent: seq<Packet>)
    requires Admissible(job) && Reached(c, SendStatus, Armed(job), sent)
    ensures var d := Section(me, job, c, slot);
            if slot.sendOk
            then Reached(d, AwaitReport, NoteAll(Armed(job), slot.inbound), sent + [StatusPacket(me, job)])
            else Failed(d)
  {
    AbsorbNotes(me, c.node, slot.inbound);
  }

  lemma AwaitReportSection(me: Address, job: Job, c: Config, before: seq<Inbound>, slot: Slot, sent: seq<Packet>)
    requires Admissible(job) && Reached(c, AwaitReport, NoteAll(Armed(job), before), sent)
    ensures var d := Section(me, job, c, slot);
            var confirmed := Confirms(LastVerdict(before + slot.inbound, job.to), NumBlocks(job.data));
            Reached(d, SendAbort(confirmed), CLEARED, sent) || (Failed(d) && !confirmed)
  {
    AbsorbNotes(me, c.node, slot.inbound);
    NoteAllConcat(Armed(job), before, slot.inbound);
    LastVerdictDecides(job, before + slot.inbound);
  }

  lemma AbortSection(me: Address, job: Job, c: Config, success: bool, slot: Slot, sent: seq<Packet>)
    requires Admissible(job) && Reached(c, SendAbort(success), CLEARED, sent)
    ensures var more := if slot.sendOk then [AbortPacket(me, job)] else [];
            Reached(Section(me, job, c, slot), Returned(success), CLEARED, sent + more)
  {
    AbsorbNotes(me, c.node, slot.inbound);
    NotWaiting(CLEARED, slot.inbound);
  }

  lemma FailureStays(me: Address, job: Job, c: Config, slot: Slot)
    requires Failed(c)
    ensures Section(me, job, c, slot) == c
  {
  }

  ghost predicate Transferred(me: Address, job: Job, sched: Schedule, c: Config, k: nat)
    requires Admissible(job) && k <= NumBlocks(job.data)
  {
    if BlocksTaken(sched, k)
    then Reached(c, if k < NumBlocks(job.data) then SendBlock(k) else ArmReport, Granted(job), SentSoFar(me, job, k))
    else Failed(c)
  }

  /** The peer has granted the request. */
  predicate Agreed(job: Job, sched: Schedule) {
    sched(1).sendOk && FirstAnswer(sched(1).inbound + sched(2).inbound, job.to) == Some(true)
  }

  // Where a write stands after each stage: on its way, or failed.

  ghost predicate AfterBlocks(me: Address, job: Job, sched: Schedule, c: Config, k: nat)
    requires Admissible(job) && k <= NumBlocks(job.data)
  {
    if Agreed(job, sched) then Transferred(me, job, sched, c, k) else Failed(c)
  }

  ghost predicate AfterArming(me: Address, job: Job, sched: Schedule, c: Config)
    requires Admissible(job)
  {
    if Agreed(job, sched) && BlocksTaken(sched, NumBlocks(job.data))
    then Reached(c, SendStatus, Armed(job), SentSoFar(me, job, NumBlocks(job.data)))
    else Failed(c)
  }

  ghost predicate AfterStatus(me: Address, job: Job, sched: Schedule, c: Config)
    requires Admissible(job)
  {
    var n := NumBlocks(job.data);
    if Agreed(job, sched) && BlocksTaken(sched, n) && sched(n + 4).sendOk
    then Reached(c, AwaitReport, NoteAll(Armed(job), sched(n + 4).inbound), Script(me, job))
    else Failed(c)
  }

  ghost predicate AfterReport(me: Address, job: Job, sched: Schedule, c: Config)
    requires Admissible(job)
  {
    if Succeeds(job, sched) then Reached(c, SendAbort(true), CLEARED, Script(me, job))
    else c.node.pending == CLEARED && (c.pc == SendAbort(false) || c.pc == Returned(false))
  }

  /** The write has returned what Succeeds says, has cleared its record, and on success has sent its script. */
  ghost predicate Decided(me: Address, job: Job, sched: Schedule, c: Config) {
    && c.node.pending == CLEARED
    && c.pc == Returned(Succeeds(job, sched))
    && (Succeeds(job, sched) ==>
          c.sent == Script(me, job) + if sched(NumBlocks(job.data) + 6).sendOk then [AbortPacket(me, job)] else [])
  }

  lemma TransferStep(me: Address, job: Job, sched: Schedule, c: Config, k: nat)
    requires Admissible(job) && k < NumBlocks(job.data) && AfterBlocks(me, job, sched, c, k)
    ensures AfterBlocks(me, job, sched, Section(me, job, c, sched(3 + k)), k + 1)
  {
    if Agreed(job, sched) && BlocksTaken(sched, k) {
      BlockSection(me, job, c, k, sched(3 + k));
    } else {
      FailureStays(me, job, c, sched(3 + k));
    }
  }

  lemma ArmStep(me: Address, job: Job, sched: Schedule, c: Config, slot: Slot)
    requires Admissible(job) && AfterBlocks(me, job, sched, c, NumBlocks(job.data))
    ensures AfterArming(me, job, sched, Section(me, job, c, slot))
  {
    if Agreed(job, sched) && BlocksTaken(sched, NumBlocks(job.data)) {
      ArmSection(me, job, c, slot, SentSoFar(me, job, NumBlocks(job.data)));
    } else {
      FailureStays(me, job, c, slot);
    }
  }

  lemma StatusStep(me: Address, job: Job, sched: Schedule, c: Config)
    requires Admissible(job) && AfterArming(me, job, sched, c)
    ensures AfterStatus(me, job, sched, Section(me, job, c, sched(NumBlocks(job.data) + 4)))
  {
    var n := NumBlocks(job.data);
    if Agreed(job, sched) && BlocksTaken(sched, n) {
      StatusSection(me, job, c, sched(n + 4), SentSoFar(me, job, n));
    } else {
      FailureStays(me, job, c, sched(n + 4));
    }
  }

  lemma ReportStep(me: Address, job: Job, sched: Schedule, c: Config)
    requires Admissible(job) && AfterStatus(me, job, sched, c)
    ensures AfterReport(me, job, sched, Section(me, job, c, sched(NumBlocks(job.data) + 5)))
  {
    var n := NumBlocks(job.data);
    if Agreed(job, sched) && BlocksTaken(sched, n) && sched(n + 4).sendOk {
      var verdict := LastVerdict(sched(n + 4).inbound + sched(n + 5).inbound, job.to);
      assert Succeeds(job, sched) == Confirms(verdict, n);
      AwaitReportSection(me, job, c, sched(n + 4).inbound, sched(n + 5), Script(me, job));
    } else {
      assert !Succeeds(job, sched);
      FailureStays(me, job, c, sched(n + 5));
    }
  }

  lemma AbortStep(me: Address, job: Job, sched: Schedule, c: Config)
    requires Admissible(job) && AfterReport(me, job, sched, c)
    ensures Decided(me, job, sched, Section(me, job, c, sched(NumBlocks(job.data) + 6)))
  {
    if c.pc.SendAbort? {
      AbortSection(me, job, c, c.pc.success, sched(NumBlocks(job.data) + 6), c.sent);
    }
  }

  lemma RequestStage(me: Address, job: Job, node: Node, sched: Schedule)
    requires Admissible(job) && node.pending == CLEARED
    ensures AfterBlocks(me, job, sched, After(me, job, node, sched, 3), 0)
  {
    ClaimSection(me, job, node, sched(0));
    assert After(me, job, node, sched, 0) == Config(Begin, node, []);
    RequestSection(me, job, After(me, job, node, sched, 1), sched(1));
    if sched(1).sendOk {
      AwaitAckSection(me, job, After(me, job, node, sched, 2), sched(1).inbound, sched(2), [RequestPacket(me, job)]);
      assert SentSoFar(me, job, 0) == [RequestPacket(me, job)];
    }
  }

  lemma {:induction false} TransferStage(me: Address, job: Job, node: Node, sched: Schedule, k: nat)
    requires Admissible(job) && node.pending == CLEARED && k <= NumBlocks(job.data)
    ensures AfterBlocks(me, job, sched, After(me, job, node, sched, 3 + k), k)
  {
    if k == 0 {
      RequestStage(me, job, node, sched);
    } else {
      TransferStage(me, job, node, sched, k - 1);
      TransferStep(me, job, sched, After(me, job, node, sched, 2 + k), k - 1);
    }
  }

  lemma ReportStage(me: Address, job: Job, node: Node, sched: Schedule)
    requires Admissible(job) && node.pending == CLEARED
    ensures AfterStatus(me, job, sched, After(me, job, node, sched, NumBlocks(job.data) + 5))
  {
    var n := NumBlocks(job.data);
    TransferStage(me, job, node, sched, n);
    ArmStep(me, job, sched, After(me, job, node, sched, n + 3), sched(n + 3));
    StatusStep(me, job, sched, After(me, job, node, sched, n + 4));
  }

  lemma VerdictStage(me: Address, job: Job, node: Node, sched: Schedule)
    requires Admissible(job) && node.pending == CLEARED
    ensures AfterReport(me, job, sched, After(me, job, node, sched, NumBlocks(job.data) + 6))
  {
    ReportStage(me, job, node, sched);
    ReportStep(me, job, sched, After(me, job, node, sched, NumBlocks(job.data) + 5));
  }

  lemma AbortStage(me: Address, job: Job, node: Node, sched: Schedule)
    requires Admissible(job) && node.pending == CLEARED
    ensures Decided(me, job, sched, After(me, job, node, sched, NumBlocks(job.data) + 7))
  {
    VerdictStage(me, job, node, sched);
    AbortStep(me, job, sched, After(me, job, node, sched, NumBlocks(job.data) + 6));
  }

  /**
   * A write always returns, with the pending record cleared. It returns true if and only if the peer's
   * first answer to the request is an acknowledgement, every frame is taken for sending, and the peer's
   * last word after the status request is a finished report with every bit set. It has then sent
   * exactly its script, and an abort if that was taken.
   */
  lemma WriteOutcome(me: Address, job: Job, node: Node, sched: Schedule)
    requires node.pending == CLEARED
    ensures Decided(me, job, sched, After(me, job, node, sched, NumBlocks(job.data) + 7))
  {
    if Admissible(job) {
      AbortStage(me, job, node, sched);
    } else {
      ClaimSection(me, job, node, sched(0));
      assert After(me, job, node, sched, 0) == Config(Begin, node, []);
      ReturnedIsFinal(me, job, node, sched, 1, NumBlocks(job.data) + 7);
    }
  }

  /** Wherever a write is seen to have returned, it is as decided. */
  lemma ReturnedResult(me: Address, job: Job, node: Node, sched: Schedule, k: nat)
    requires node.pending == CLEARED && After(me, job, node, sched, k).pc.Returned?
    ensures Decided(me, job, sched, After(me, job, node, sched, k))
  {
    var end := NumBlocks(job.data) + 7;
    WriteOutcome(me, job, node, sched);
    if k <= end {
      ReturnedIsFinal(me, job, node, sched, k, end);
    } else {
      ReturnedIsFinal(me, job, node, sched, end, k);
    }
  }
}
