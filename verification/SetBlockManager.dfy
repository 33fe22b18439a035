/** The class that serves and initiates SETBLOCK transactions. */
module SetBlockManager {
  import opened CanTypes
  import opened Codec
  import opened Blocks
  import opened SetBlockSpec
  import opened SetBlockRun
  import opened SetBlockOutcome

  /** An inbound frame together with the answer the application gives if this frame makes it act. */
  datatype FrameIn = FrameIn(header: Header, data: Payload, answer: Answer)

  datatype FrameSlot = FrameSlot(inbound: seq<FrameIn>, sendOk: bool)

  function ToPacket(w: Wire): Packet {
    Packet(w.header.to, w.header.from, DecodeSet(w.header.command), w.data)
  }

  function Packets(out: seq<Wire>): (ps: seq<Packet>)
    ensures |ps| == |out|
  {
    seq(|out|, i requires 0 <= i < |out| => ToPacket(out[i]))
  }

  function ToInbound(f: FrameIn): Inbound {
    Inbound(f.header.from, DecodeSet(f.header.command), f.data, f.answer)
  }

  function Inbounds(fs: seq<FrameIn>): (ms: seq<Inbound>)
    ensures |ms| == |fs|
  {
    seq(|fs|, i requires 0 <= i < |fs| => ToInbound(fs[i]))
  }

  function DecodedSlot(slot: FrameSlot): Slot {
    Slot(Inbounds(slot.inbound), slot.sendOk)
  }

  function Decoded(sched: nat -> FrameSlot): Schedule {
    (k: nat) => DecodedSlot(sched(k))
  }

  /** Frames this manager sends are SETBLOCK frames whose header fits the 29-bit identifier. */
  ghost predicate Sendable(out: seq<Wire>) {
    forall i :: 0 <= i < |out| ==> out[i].header.mtype == SETBLOCK && FitsIdentifier(out[i].header)
  }

  method ReceivedFlags(blocks: seq<Payload>) returns (received: seq<bool>)
    ensures received == Flags(blocks)
  {
    received := seq(|blocks|, i => false);
    for i := 0 to |blocks|
      invariant |received| == |blocks|
      invariant forall j :: 0 <= j < i ==> received[j] == (blocks[j] != [])
    {
      received := received[i := blocks[i] != []];
    }
  }

  /** Copies the data into zero-filled 8-byte blocks. */
  method SplitIntoBlocks(data: seq<Byte>) returns (blocks: seq<Payload>)
    requires data != []
    ensures blocks == Chunks(data)
  {
    var numBlocks := (|data| + FRAME_MAX_DATA - 1) / FRAME_MAX_DATA;
    blocks := seq(numBlocks, i => Zeros(8));
    for i := 0 to numBlocks
      invariant |blocks| == numBlocks == NumBlocks(data)
      invariant forall j :: 0 <= j < i ==> blocks[j] == Chunk(data, j)
      invariant forall j :: i <= j < numBlocks ==> blocks[j] == Zeros(8)
    {
      var start := i * FRAME_MAX_DATA;
      var len := if |data| - start < FRAME_MAX_DATA then |data| - start else FRAME_MAX_DATA;
      var block := data[start..start + len] + blocks[i][len..];
      assert block == Chunk(data, i);
      blocks := blocks[i := block];
    }
  }

  method CheckAllBits(bitmap: Payload, numBlocks: nat) returns (allSet: bool)
    ensures allSet == AllBitsSet(bitmap, numBlocks)
  {
    for i := 0 to numBlocks
      invariant AllBitsSet(bitmap, i)
    {
      if !BitmapBitIsSet(bitmap, i) {
        return false;
      }
    }
    return true;
  }

  class SetBlockManager {
    const localAddress: Address
    var sessions: map<Address, Session>
    var pending: Pending

    function State(): Node
      reads this
    {
      Node(sessions, pending)
    }

    constructor (localAddress: Address)
      ensures this.localAddress == localAddress
      ensures State() == Node(map[], CLEARED)
    {
      this.localAddress := localAddress;
      sessions := map[];
      pending := CLEARED;
    }

    /** Consumes one SETBLOCK frame. */
    method OnFrame(h: Header, data: Payload, answer: Answer) returns (out: seq<Wire>, deliveries: seq<Delivery>)
      modifies this
      ensures var r := React(localAddress, old(State()), h.from, DecodeSet(h.command), data, answer);
              State() == r.node && Packets(out) == r.replies && deliveries == r.deliveries
      ensures Sendable(out)
    {
      out, deliveries := [], [];
      match GetSetBlockType(h.command) {
        case Request => out := OnRequestFrame(h, BlockLow6(h.command), data);
        case Transfer => out := OnTransferFrame(h, BlockLow6(h.command), data);
        case StatusRequest => out, deliveries := OnStatusRequestFrame(h, BlockLow6(h.command), data, answer);
        case Abort => out := OnAbortFrame(h, BlockLow6(h.command), data);
        case Ack => OnReply(h.from, DecodeSet(h.command), data);
        case Nack => OnReply(h.from, DecodeSet(h.command), data);
        case Report => OnReply(h.from, DecodeSet(h.command), data);
        case Reserved =>
      }
    }

    /** Records a peer's reply for the thread that runs a write to that peer. */
    method OnReply(from: Address, msg: SetMsg, data: Payload)
      modifies this`pending
      ensures pending == Note(old(pending), from, msg, data)
    {
      match msg.kind {
        case Ack =>
          if pending.active && pending.peer == from && pending.waitingRequestAck {
            pending := pending.(requestAcked := true, waitingRequestAck := false);
          }
        case Nack =>
          if pending.active && pending.peer == from {
            if pending.waitingRequestAck || pending.waitingReport {
              pending := pending.(done := true, ok := false);
            }
          }
        case Report =>
          if pending.active && pending.peer == from && pending.waitingReport {
            pending := pending.(bitmap := data, done := msg.done, ok := true, reportReceived := true);
          }
        case _ =>
      }
    }

    /** Answers a frame: the reply repeats its sequence bits and its payload. */
    method Echo(h: Header, kind: SetKind, low6: Low6, data: Payload) returns (out: seq<Wire>)
      requires low6 == BlockLow6(h.command)
      ensures Packets(out) == [Reply(localAddress, h.from, kind, low6, data)]
      ensures Sendable(out)
    {
      EchoSetCommand(kind, h.command);
      out := [Wire(Header(h.from, localAddress, SETBLOCK, MakeSetBlockCommand(kind, AckCommandLow7(h.command))), data)];
    }

    method OnAbortFrame(h: Header, low6: Low6, data: Payload) returns (out: seq<Wire>)
      requires low6 == BlockLow6(h.command)
      modifies this`sessions
      ensures var r := OnAbort(localAddress, old(State()), h.from, low6, data);
              State() == r.node && Packets(out) == r.replies
      ensures Sendable(out)
    {
      sessions := sessions - {h.from};
      out := Echo(h, SetKind.Ack, low6, data);
    }

    method OnRequestFrame(h: Header, low6: Low6, data: Payload) returns (out: seq<Wire>)
      requires low6 == BlockLow6(h.command)
      modifies this
      ensures var r := OnRequest(localAddress, old(State()), h.from, low6, data);
              State() == r.node && Packets(out) == r.replies
      ensures Sendable(out)
    {
      var numBlocks := low6 + 1;
      var accepted := 0 < numBlocks <= 64 && numBlocks * FRAME_MAX_DATA <= MAX_BLOCK_BYTES && data != [];
      sessions := sessions[h.from :=
        SessionRecord(h.from, data, numBlocks, seq(numBlocks, i => []), accepted, false)];
      out := Echo(h, if accepted then SetKind.Ack else SetKind.Nack, low6, data);
    }

    method OnTransferFrame(h: Header, low6: Low6, data: Payload) returns (out: seq<Wire>)
      requires low6 == BlockLow6(h.command)
      modifies this
      ensures var r := OnTransfer(localAddress, old(State()), h.from, low6, data);
              State() == r.node && Packets(out) == r.replies
      ensures Sendable(out)
    {
      var accept := false;
      if h.from in sessions && sessions[h.from].accepted && low6 < sessions[h.from].numBlocks {
        var session: Session := sessions[h.from];
        sessions := sessions[h.from := session.(blocks := session.blocks[low6 := data])];
        accept := true;
      }
      out := Echo(h, if accept then SetKind.Ack else SetKind.Nack, low6, data);
    }

    /** Reports which blocks have arrived and hands a complete payload to the application once. */
    method OnStatusRequestFrame(h: Header, low6: Low6, data: Payload, answer: Answer)
      returns (out: seq<Wire>, deliveries: seq<Delivery>)
      requires low6 == BlockLow6(h.command)
      modifies this
      ensures var r := OnStatusRequest(localAddress, old(State()), h.from, low6, data, answer);
              State() == r.node && Packets(out) == r.replies && deliveries == r.deliveries
      ensures Sendable(out)
    {
      deliveries := [];
      if h.from !in sessions || !sessions[h.from].accepted {
        out := Echo(h, SetKind.Nack, low6, data);
        return;
      }
      var session: Session := sessions[h.from];
      var assembled := [];
      var received := ReceivedFlags(session.blocks);
      if AllBlocksReceived(received) && !session.done {
        assembled := Assemble(session.blocks);
      }
      if assembled != [] && !session.done {
        var taken := if answer.Answered? then answer.ok else true;
        deliveries := [Delivery(h.from, assembled, taken)];
        session := session.(done := taken);
      }
      sessions := sessions[h.from := session];
      out := SendReport(h.from, session);
    }

    method SendReport(to: Address, session: Session) returns (out: seq<Wire>)
      ensures Packets(out) == [ReportPacket(localAddress, to, session)]
      ensures Sendable(out)
    {
      var received := ReceivedFlags(session.blocks);
      var bitmap := MakeBitmap(received);
      var size: Low6 := |bitmap| % 64;
      ReportCommandRoundTrip(size, session.done);
      var dlc := if |bitmap| <= FRAME_MAX_DATA then |bitmap| else FRAME_MAX_DATA;
      out := [Wire(Header(to, localAddress, SETBLOCK, MakeSetBlockReportCommand(size as bv16, session.done)),
                   bitmap[..dlc])];
    }

    /** The frames another thread delivers between two atomic sections of a write. */
    method Interfere(inbound: seq<FrameIn>)
      modifies this
      ensures State() == Absorb(localAddress, old(State()), Inbounds(inbound))
    {
      for i := 0 to |inbound|
        invariant State() == Absorb(localAddress, old(State()), Inbounds(inbound[..i]))
      {
        assert Inbounds(inbound[..i + 1])[..i] == Inbounds(inbound[..i]);
        var out, deliveries := OnFrame(inbound[i].header, inbound[i].data, inbound[i].answer);
      }
      assert inbound[..|inbound|] == inbound;
    }

    method Send(sent: seq<Wire>, to: Address, kind: SetKind, low6: Low6, data: Payload) returns (out: seq<Wire>)
      requires Sendable(sent)
      ensures Packets(out) == Packets(sent) + [Packet(to, localAddress, SetMsg(kind, low6, false), data)]
      ensures Sendable(out)
    {
      SetCommandRoundTrip(kind, low6);
      out := sent + [Wire(Header(to, localAddress, SETBLOCK, MakeSetBlockCommand(kind, low6 as bv16)), data)];
    }

    // One method per atomic section of a write. Each first lets the frames of its slot be handled.

    ghost function Configured(pc: Pc, out: seq<Wire>): Config
      reads this
    {
      Config(pc, State(), Packets(out))
    }

    method ClaimPending(job: Job, slot: FrameSlot) returns (go: bool)
      modifies this
      ensures go <==> Admissible(job)
      ensures Configured(if go then SendRequest else Returned(false), [])
           == Section(localAddress, job, old(Configured(Begin, [])), DecodedSlot(slot))
    {
      Interfere(slot.inbound);
      if job.address == [] || job.data == [] || |job.data| > MAX_BLOCK_BYTES {
        return false;
      }
      var numBlocks := (|job.data| + FRAME_MAX_DATA - 1) / FRAME_MAX_DATA;
      pending := CLEARED.(active := true, waitingRequestAck := true, peer := job.to, numBlocks := numBlocks);
      return true;
    }

    method SendRequestFrame(job: Job, slot: FrameSlot) returns (go: bool, out: seq<Wire>)
      requires Admissible(job)
      modifies this
      ensures Configured(if go then AwaitAck else Returned(false), out)
           == Section(localAddress, job, old(Configured(SendRequest, [])), DecodedSlot(slot))
      ensures Sendable(out)
    {
      Interfere(slot.inbound);
      if !slot.sendOk {
        pending := CLEARED;
        return false, [];
      }
      out := Send([], job.to, SetKind.Request, NumBlocks(job.data) - 1, FirstBytes(job.address));
      return true, out;
    }

    method AwaitRequestAck(job: Job, slot: FrameSlot, ghost out: seq<Wire>) returns (go: bool)
      requires Admissible(job)
      modifies this
      ensures Configured(if go then SendBlock(0) else Returned(false), out)
           == Section(localAddress, job, old(Configured(AwaitAck, out)), DecodedSlot(slot))
    {
      Interfere(slot.inbound);
      if pending.done || !pending.requestAcked {
        pending := CLEARED;
        return false;
      }
      return true;
    }

    method SendBlockFrame(job: Job, i: nat, block: Payload, slot: FrameSlot, sent: seq<Wire>)
      returns (go: bool, out: seq<Wire>)
      requires Admissible(job) && i < NumBlocks(job.data) && block == Chunk(job.data, i)
      requires Sendable(sent)
      modifies this
      ensures Configured(if !go then Returned(false) else AfterBlock(job, i), out)
           == Section(localAddress, job, old(Configured(SendBlock(i), sent)), DecodedSlot(slot))
      ensures Sendable(out)
    {
      Interfere(slot.inbound);
      if !slot.sendOk {
        pending := CLEARED;
        return false, sent;
      }
      out := Send(sent, job.to, SetKind.Transfer, i, block);
      return true, out;
    }

    method ArmForReport(job: Job, slot: FrameSlot, ghost out: seq<Wire>)
      requires Admissible(job)
      modifies this
      ensures Configured(SendStatus, out)
           == Section(localAddress, job, old(Configured(ArmReport, out)), DecodedSlot(slot))
    {
      Interfere(slot.inbound);
      pending := pending.(waitingReport := true, reportReceived := false, done := false, ok := false);
    }

    method SendStatusFrame(job: Job, slot: FrameSlot, sent: seq<Wire>) returns (go: bool, out: seq<Wire>)
      requires Admissible(job) && Sendable(sent)
      modifies this
      ensures Configured(if go then AwaitReport else Returned(false), out)
           == Section(localAddress, job, old(Configured(SendStatus, sent)), DecodedSlot(slot))
      ensures Sendable(out)
    {
      Interfere(slot.inbound);
      if !slot.sendOk {
        pending := CLEARED;
        return false, sent;
      }
      out := Send(sent, job.to, SetKind.StatusRequest, 0, []);
      return true, out;
    }

    method AwaitFinalReport(job: Job, slot: FrameSlot, ghost out: seq<Wire>) returns (go: bool, success: bool)
      requires Admissible(job)
      modifies this
      ensures Configured(if go then SendAbort(success) else Returned(false), out)
           == Section(localAddress, job, old(Configured(AwaitReport, out)), DecodedSlot(slot))
    {
      Interfere(slot.inbound);
      if !pending.ok || !pending.reportReceived {
        pending := CLEARED;
        return false, false;
      }
      var allSet := CheckAllBits(pending.bitmap, NumBlocks(job.data));
      success := allSet && pending.done;
      pending := CLEARED;
      return true, success;
    }

    method SendAbortFrame(job: Job, success: bool, slot: FrameSlot, sent: seq<Wire>) returns (out: seq<Wire>)
      requires Admissible(job) && Sendable(sent)
      modifies this
      ensures Configured(Returned(success), out)
           == Section(localAddress, job, old(Configured(SendAbort(success), sent)), DecodedSlot(slot))
      ensures Sendable(out)
    {
      Interfere(slot.inbound);
      out := sent;
      if slot.sendOk {
        out := Send(sent, job.to, SetKind.Abort, 0, []);
      }
    }

    // The phases of a write. Slot k of a schedule holds the frames delivered before the k-th section.

    ghost predicate At(job: Job, start: Node, sched: nat -> FrameSlot, k: nat, pc: Pc, out: seq<Wire>)
      reads this
    {
      Configured(pc, out) == After(localAddress, job, start, Decoded(sched), k) && Sendable(out)
    }

    /** Claims the pending record and sends the request. */
    method RequestPhase(job: Job, sched: nat -> FrameSlot) returns (go: bool, out: seq<Wire>, ghost sections: nat)
      modifies this
      ensures go ==> Admissible(job) && sections == 2
      ensures !Admissible(job) ==> !go && out == []
      ensures At(job, old(State()), sched, sections, if go then AwaitAck else Returned(false), out)
    {
      out, sections := [], 1;
      go := ClaimPending(job, sched(0));
      assert Decoded(sched)(0) == DecodedSlot(sched(0));
      if go {
        assert At(job, old(State()), sched, 1, SendRequest, []);
        sections := 2;
        go, out := SendRequestFrame(job, sched(1));
      }
    }

    /** Sends the blocks in order. */
    method TransferPhase(job: Job, sched: nat -> FrameSlot, blocks: seq<Payload>, sent: seq<Wire>, ghost start: Node)
      returns (go: bool, out: seq<Wire>, ghost sections: nat)
      requires Admissible(job) && blocks == Chunks(job.data)
      requires At(job, start, sched, 3, SendBlock(0), sent)
      modifies this
      ensures go ==> sections == 3 + |blocks|
      ensures At(job, start, sched, sections, if go then ArmReport else Returned(false), out)
    {
      go, out, sections := true, sent, 3;
      for i := 0 to |blocks|
        invariant sections == 3 + i
        invariant At(job, start, sched, 3 + i, if i < |blocks| then SendBlock(i) else ArmReport, out)
      {
        sections := 4 + i;
        assert Decoded(sched)(3 + i) == DecodedSlot(sched(3 + i));
        go, out := SendBlockFrame(job, i, blocks[i], sched(3 + i), out);
        if !go {
          return;
        }
      }
      go := true;
    }

    /** Arms the pending record for the report and asks for it. */
    method StatusPhase(job: Job, sched: nat -> FrameSlot, k: nat, sent: seq<Wire>, ghost start: Node)
      returns (go: bool, out: seq<Wire>)
      requires Admissible(job)
      requires At(job, start, sched, k, ArmReport, sent)
      modifies this
      ensures At(job, start, sched, k + 2, if go then AwaitReport else Returned(false), out)
    {
      ArmForReport(job, sched(k), sent);
      assert At(job, start, sched, k + 1, SendStatus, sent);
      go, out := SendStatusFrame(job, sched(k + 1), sent);
    }

    /** Waits for the report, judges it and closes the transaction. */
    method VerdictPhase(job: Job, sched: nat -> FrameSlot, k: nat, sent: seq<Wire>, ghost start: Node)
      returns (result: bool, out: seq<Wire>, ghost sections: nat)
      requires Admissible(job)
      requires At(job, start, sched, k, AwaitReport, sent)
      modifies this
      ensures At(job, start, sched, sections, Returned(result), out)
    {
      out, sections := sent, k + 1;
      var go;
      go, result := AwaitFinalReport(job, sched(k), sent);
      if !go {
        return false, sent, k + 1;
      }
      assert At(job, start, sched, k + 1, SendAbort(result), sent);
      sections := k + 2;
      out := SendAbortFrame(job, result, sched(k + 1), sent);
    }

    /**
     * Writes data to a remote block and waits for the peer's report. A wait ends with its condition true
     * or, after a timeout, false, so it is the section that reads the condition.
     */
    method SetBlock(to: Address, addressLE: seq<Byte>, data: seq<Byte>, sched: nat -> FrameSlot)
      returns (result: bool, out: seq<Wire>)
      requires pending == CLEARED
      modifies this
      ensures pending == CLEARED
      ensures result <==> Succeeds(Job(to, addressLE, data), Decoded(sched))
      ensures addressLE == [] || data == [] || |data| > 512 ==> !result && out == []
      ensures result ==>
                var n := (|data| + 7) / 8;
                var abort := Packet(to, localAddress, SetMsg(SetKind.Abort, 0, false), []);
                && |out| >= n + 2 && Spells(localAddress, to, addressLE, data, Packets(out)[..n + 2])
                && Packets(out)[n + 2..] == if sched(n + 6).sendOk then [abort] else []
      ensures Sendable(out)
      ensures exists sections: nat :: At(Job(to, addressLE, data), old(State()), sched, sections, Returned(result), out)
    {
      ghost var sections;
      result, out, sections := RunWrite(to, addressLE, data, sched);
      ghost var job := Job(to, addressLE, data);
      ReturnedResult(localAddress, job, old(State()), Decoded(sched), sections);
      if result {
        ScriptSpells(localAddress, job);
      }
    }

    method RunWrite(to: Address, addressLE: seq<Byte>, data: seq<Byte>, sched: nat -> FrameSlot)
      returns (result: bool, out: seq<Wire>, ghost sections: nat)
      modifies this
      ensures At(Job(to, addressLE, data), old(State()), sched, sections, Returned(result), out)
      ensures !Admissible(Job(to, addressLE, data)) ==> out == []
    {
      var job := Job(to, addressLE, data);
      var go;
      ghost var start := State();
      result := false;
      go, out, sections := RequestPhase(job, sched);
      if !go {
        return;
      }
      sections := 3;
      go := AwaitRequestAck(job, sched(2), out);
      assert At(job, start, sched, 3, if go then SendBlock(0) else Returned(false), out);
      if !go {
        return;
      }
      var blocks := SplitIntoBlocks(data);
      go, out, sections := TransferPhase(job, sched, blocks, out, start);
      if !go {
        return;
      }
      sections := 5 + |blocks|;
      go, out := StatusPhase(job, sched, 3 + |blocks|, out, start);
      if !go {
        return;
      }
      result, out, sections := VerdictPhase(job, sched, 5 + |blocks|, out, start);
    }
  }
}
