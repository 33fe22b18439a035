/** The class that serves and initiates GETBLOCK transactions. */
module GetBlockManager {
  import opened CanTypes
  import opened Codec
  import opened Blocks
  import opened GetBlockSpec
  import opened GetBlockRun
  import opened GetBlockOutcome

  /** An inbound frame together with the answer the application gives if this frame makes it act. */
  datatype FrameIn = FrameIn(header: Header, data: Payload, answer: Answer)

  datatype FrameSlot = FrameSlot(inbound: seq<FrameIn>, sendOk: bool)

  function ToPacket(w: Wire): Packet {
    Packet(w.header.to, w.header.from, DecodeGet(w.header.command), w.data)
  }

  function Packets(out: seq<Wire>): (ps: seq<Packet>)
    ensures |ps| == |out|
  {
    seq(|out|, i requires 0 <= i < |out| => ToPacket(out[i]))
  }

  function ToInbound(f: FrameIn): Inbound {
    Inbound(f.header.from, DecodeGet(f.header.command), f.data, f.answer)
  }

  function Inbounds(fs: seq<FrameIn>): (ms: seq<Inbound>)
    ensures |ms| == |fs|
  {
    seq(|fs|, i requires 0 <= i < |fs| => ToInbound(fs[i]))
  }

  function DecodedSlot(slot: FrameSlot): Slot {
    Slot(Inbounds(slot.inbound), slot.sendOk)
  }

  function Decoded(sched: nat -> FrameSlot): Schedule {
    (k: nat) => DecodedSlot(sched(k))
  }

  /** Frames this manager sends are GETBLOCK frames whose header fits the 29-bit identifier. */
  ghost predicate Sendable(out: seq<Wire>) {
    forall i :: 0 <= i < |out| ==> out[i].header.mtype == GETBLOCK && FitsIdentifier(out[i].header)
  }

  method CutResponse(response: seq<Byte>, numBlocks: nat) returns (blocks: seq<Payload>)
    requires |response| == 8 * numBlocks
    ensures blocks == Slices(response, numBlocks)
  {
    blocks := seq(numBlocks, i => []);
    for i := 0 to numBlocks
      invariant |blocks| == numBlocks
      invariant forall j :: 0 <= j < i ==> blocks[j] == response[8 * j..8 * j + 8]
    {
      blocks := blocks[i := response[i * FRAME_MAX_DATA..(i + 1) * FRAME_MAX_DATA]];
    }
  }

  /** Blanks the blocks that the bitmap does not select. */
  method Unselect(blocks: seq<Payload>, bitmap: Payload) returns (toSend: seq<Payload>)
    ensures |toSend| == |blocks|
    ensures forall i :: 0 <= i < |blocks| ==> toSend[i] == if BitmapBitIsSet(bitmap, i) then blocks[i] else []
  {
    toSend := blocks;
    for i := 0 to |blocks|
      invariant |toSend| == |blocks|
      invariant forall j :: 0 <= j < i ==> toSend[j] == if BitmapBitIsSet(bitmap, j) then blocks[j] else []
      invariant forall j :: i <= j < |blocks| ==> toSend[j] == blocks[j]
    {
      if !BitmapBitIsSet(bitmap, i) {
        toSend := toSend[i := []];
      }
    }
  }

  class GetBlockManager {
    const localAddress: Address
    var sessions: map<Address, Session>
    var pending: Pending
    var lastData: seq<Byte>

    function State(): Node
      reads this
    {
      Node(sessions, pending, lastData)
    }

    constructor (localAddress: Address)
      ensures this.localAddress == localAddress
      ensures State() == Node(map[], CLEARED, [])
    {
      this.localAddress := localAddress;
      sessions, pending, lastData := map[], CLEARED, [];
    }

    /** Consumes one GETBLOCK frame. asked lists the peers for whom the application is consulted. */
    method OnFrame(
        h: Header, data: Payload, answer: Answer) returns (out: seq<Wire>, served: seq<Service>, asked: seq<Address>)
      modifies this
      ensures var r := React(localAddress, old(State()), h.from, DecodeGet(h.command), data, answer);
              State() == r.node && Packets(out) == r.replies && served == r.served
      ensures asked == if DecodeGet(h.command).kind.Request? && !answer.NoHandler? then [h.from] else []
      ensures Sendable(out)
    {
      out, served, asked := [], [], [];
      match GetGetBlockType(h.command) {
        case Request =>
          if !answer.NoHandler? {
            asked := [h.from];
          }
          out, served := OnRequestFrame(h, BlockLow6(h.command), data, answer);
        case Start => out := OnStartFrame(h, BlockLow6(h.command), data);
        case Abort => sessions := sessions - {h.from};
        case Ack => OnAnswerFrame(h.from, GetKind.Ack);
        case Nack => OnAnswerFrame(h.from, GetKind.Nack);
        case Transfer => OnTransferFrame(h.from, BlockLow6(h.command), data);
        case _ =>
      }
    }

    /** Answers a frame: the reply repeats its sequence bits and its payload. */
    method Echo(h: Header, kind: GetKind, low6: Low6, data: Payload) returns (out: seq<Wire>)
      requires low6 == BlockLow6(h.command)
      ensures Packets(out) == [Reply(localAddress, h.from, kind, low6, data)]
      ensures Sendable(out)
    {
      EchoGetCommand(kind, h.command);
      out := [Wire(Header(h.from, localAddress, GETBLOCK, MakeGetBlockCommand(kind, AckCommandLow7(h.command))), data)];
    }

    /** Fetches the response and keeps it in blocks, or refuses and keeps what was there. */
    method OnRequestFrame(h: Header, low6: Low6, data: Payload, answer: Answer)
      returns (out: seq<Wire>, served: seq<Service>)
      requires low6 == BlockLow6(h.command)
      modifies this`sessions
      ensures var r := OnRequest(localAddress, old(State()), h.from, low6, data, answer);
              State() == r.node && Packets(out) == r.replies && served == r.served
      ensures Sendable(out)
    {
      var ok := answer.Provides?;
      var response := if ok then answer.response else [];
      var numBlocks := low6 + 1;
      if !ok || numBlocks > 64 || |response| > MAX_BLOCK_BYTES || |response| != numBlocks * FRAME_MAX_DATA
          || data == [] {
        served := [];
        out := Echo(h, GetKind.Nack, low6, data);
      } else {
        assert Usable(low6, data, answer);
        Keep(h.from, data, response, numBlocks);
        served := [Service(h.from, response)];
        out := Echo(h, GetKind.Ack, low6, data);
      }
    }

    method Keep(from: Address, address: Payload, response: seq<Byte>, numBlocks: nat)
      requires 1 <= numBlocks <= 64 && |response| == 8 * numBlocks
      modifies this`sessions
      ensures sessions == old(sessions)[from := OpenSession(from, numBlocks - 1, address, response)]
    {
      var blocks := CutResponse(response, numBlocks);
      sessions := sessions[from := SessionRecord(from, address, numBlocks, blocks, true)];
    }

    /** Sends the selected blocks in order. */
    method OnStartFrame(h: Header, low6: Low6, data: Payload) returns (out: seq<Wire>)
      requires low6 == BlockLow6(h.command)
      ensures var r := OnStart(localAddress, State(), h.from, low6, data);
              State() == r.node && Packets(out) == r.replies
      ensures Sendable(out)
    {
      if h.from !in sessions || !sessions[h.from].accepted {
        out := Echo(h, GetKind.Nack, low6, data);
        return;
      }
      var session := sessions[h.from];
      var toSend := Unselect(session.blocks, data);
      out := [];
      for i := 0 to session.numBlocks
        invariant Packets(out) == Selected(localAddress, h.from, session.blocks, data, i)
        invariant Sendable(out)
      {
        if toSend[i] != [] {
          out := Send(out, h.from, GetKind.Transfer, i, toSend[i]);
        }
      }
    }

    method OnAnswerFrame(from: Address, kind: GetKind)
      requires kind.Ack? || kind.Nack?
      modifies this`pending
      ensures pending == OnAnswer(old(pending), from, kind)
    {
      if kind.Ack? {
        if pending.waitingAck && pending.peer == from {
          pending := pending.(acked := true, waitingAck := false);
        }
      } else if (pending.waitingAck || pending.waitingTransfers) && pending.peer == from {
        pending := pending.(done := true, ok := false);
      }
    }

    /** Stores a received block and, once all have arrived, joins them. */
    method OnTransferFrame(from: Address, low6: Low6, data: Payload)
      modifies this
      ensures State() == OnTransfer(old(State()), from, low6, data)
    {
      if !pending.waitingTransfers || pending.peer != from {
        return;
      }
      if low6 >= pending.numBlocks {
        return;
      }
      pending := pending.(blocks := pending.blocks[low6 := data], received := pending.received[low6 := true]);
      if AllBlocksReceived(pending.received) {
        pending := pending.(done := true, ok := true);
        lastData := Assemble(pending.blocks);
      }
    }

    /** The frames another thread delivers between two atomic sections of a read. */
    method Interfere(inbound: seq<FrameIn>)
      modifies this
      ensures State() == Absorb(localAddress, old(State()), Inbounds(inbound))
    {
      for i := 0 to |inbound|
        invariant State() == Absorb(localAddress, old(State()), Inbounds(inbound[..i]))
      {
        assert Inbounds(inbound[..i + 1])[..i] == Inbounds(inbound[..i]);
        var out, served, asked := OnFrame(inbound[i].header, inbound[i].data, inbound[i].answer);
      }
      assert inbound[..|inbound|] == inbound;
    }

    method Send(sent: seq<Wire>, to: Address, kind: GetKind, low6: Low6, data: Payload) returns (out: seq<Wire>)
      requires Sendable(sent)
      ensures Packets(out) == Packets(sent) + [Packet(to, localAddress, GetMsg(kind, low6), data)]
      ensures Sendable(out)
    {
      GetCommandRoundTrip(kind, low6);
      out := sent + [Wire(Header(to, localAddress, GETBLOCK, MakeGetBlockCommand(kind, low6 as bv16)), data)];
    }

    // One method per atomic section of a read. Each first lets the frames of its slot be handled.

    ghost function Configured(pc: Pc, out: seq<Wire>): Config
      reads this
    {
      Config(pc, State(), Packets(out))
    }

    method ClaimPending(job: Job, slot: FrameSlot) returns (go: bool)
      modifies this
      ensures go <==> job.address != []
      ensures Configured(if go then SendRequest else Returned(false), [])
           == Section(localAddress, job, old(Configured(Begin, [])), DecodedSlot(slot))
    {
      Interfere(slot.inbound);
      if job.address == [] {
        return false;
      }
      pending := CLEARED.(waitingAck := true, peer := job.to, numBlocks := READ_BLOCKS);
      return true;
    }

    method SendRequestFrame(job: Job, slot: FrameSlot) returns (go: bool, out: seq<Wire>)
      modifies this
      ensures Configured(if go then AwaitAck else Returned(false), out)
           == Section(localAddress, job, old(Configured(SendRequest, [])), DecodedSlot(slot))
      ensures Sendable(out)
    {
      Interfere(slot.inbound);
      if !slot.sendOk {
        pending := CLEARED;
        return false, [];
      }
      out := Send([], job.to, GetKind.Request, READ_BLOCKS - 1, FirstBytes(job.address));
      return true, out;
    }

    method AwaitRequestAck(job: Job, slot: FrameSlot, ghost out: seq<Wire>) returns (go: bool)
      modifies this
      ensures Configured(if go then SendStart else Returned(false), out)
           == Section(localAddress, job, old(Configured(AwaitAck, out)), DecodedSlot(slot))
    {
      Interfere(slot.inbound);
      if !(pending.acked || pending.done) || pending.done {
        pending := CLEARED;
        return false;
      }
      pending := pending.(waitingTransfers := true, numBlocks := pending.numBlocks,
                          blocks := seq(pending.numBlocks, i => []), received := seq(pending.numBlocks, i => false));
      return true;
    }

    method SendStartFrame(job: Job, slot: FrameSlot, sent: seq<Wire>) returns (go: bool, out: seq<Wire>)
      requires Sendable(sent)
      modifies this
      ensures Configured(if go then AwaitTransfers else Returned(false), out)
           == Section(localAddress, job, old(Configured(SendStart, sent)), DecodedSlot(slot))
      ensures Sendable(out)
    {
      Interfere(slot.inbound);
      if !slot.sendOk {
        pending := CLEARED;
        return false, sent;
      }
      var bitmap := StartBitmap(READ_BLOCKS);
      StartBitmapIsFull(bitmap);
      out := Send(sent, job.to, GetKind.Start, 0, bitmap);
      return true, out;
    }

    method AwaitAllTransfers(job: Job, slot: FrameSlot, ghost out: seq<Wire>) returns (success: bool)
      modifies this
      ensures Configured(Returned(success), out)
           == Section(localAddress, job, old(Configured(AwaitTransfers, out)), DecodedSlot(slot))
    {
      Interfere(slot.inbound);
      success := pending.done && pending.ok;
      pending := CLEARED;
    }

    ghost predicate At(job: Job, start: Node, sched: nat -> FrameSlot, k: nat, pc: Pc, out: seq<Wire>)
      reads this
    {
      Configured(pc, out) == After(localAddress, job, start, Decoded(sched), k) && Sendable(out)
    }

    method RequestPhase(job: Job, sched: nat -> FrameSlot) returns (go: bool, out: seq<Wire>, ghost sections: nat)
      modifies this
      ensures go ==> sections == 2
      ensures job.address == [] ==> !go && out == []
      ensures At(job, old(State()), sched, sections, if go then AwaitAck else Returned(false), out)
    {
      out, sections := [], 1;
      go := ClaimPending(job, sched(0));
      assert Decoded(sched)(0) == DecodedSlot(sched(0));
      if go {
        assert At(job, old(State()), sched, 1, SendRequest, []);
        sections := 2;
        go, out := SendRequestFrame(job, sched(1));
      }
    }

    method StartPhase(job: Job, sched: nat -> FrameSlot, sent: seq<Wire>, ghost start: Node)
      returns (go: bool, out: seq<Wire>, ghost sections: nat)
      requires At(job, start, sched, 2, AwaitAck, sent)
      modifies this
      ensures go ==> sections == 4
      ensures At(job, start, sched, sections, if go then AwaitTransfers else Returned(false), out)
    {
      out, sections := sent, 3;
      go := AwaitRequestAck(job, sched(2), sent);
      if go {
        assert At(job, start, sched, 3, SendStart, sent);
        sections := 4;
        go, out := SendStartFrame(job, sched(3), sent);
      }
    }

    /**
     * Reads 64 blocks from a remote node into lastData. Slot k of the schedule holds the frames delivered
     * before the k-th atomic section. A wait ends with its condition true or, after a timeout, false, so
     * it is the section that reads the condition.
     */
    method GetBlock(to: Address, addressLE: seq<Byte>, sched: nat -> FrameSlot) returns (result: bool, out: seq<Wire>)
      requires pending == CLEARED
      modifies this
      ensures pending == CLEARED
      ensures result <==> Succeeds(Job(to, addressLE), Decoded(sched))
      ensures var first := addressLE[..if |addressLE| < 8 then |addressLE| else 8];
              result ==> Packets(out) == [Packet(to, localAddress, GetMsg(GetKind.Request, 63), first),
                                          Packet(to, localAddress, GetMsg(GetKind.Start, 0),
                                                 [0xFF, 0xFF, 0xFF, 0xFF, 0xFF, 0xFF, 0xFF, 0xFF])]
      ensures addressLE == [] ==> !result && out == []
      ensures Sendable(out)
      ensures var job := Job(to, addressLE);
              lastData == DataAfter(job, Decoded(sched), old(lastData), Starts(job, Decoded(sched)))
      ensures exists sections: nat :: At(Job(to, addressLE), old(State()), sched, sections, Returned(result), out)
    {
      ghost var sections;
      result, out, sections := RunRead(to, addressLE, sched);
      ReturnedResult(localAddress, Job(to, addressLE), old(State()), Decoded(sched), sections);
    }

    method RunRead(to: Address, addressLE: seq<Byte>, sched: nat -> FrameSlot)
      returns (result: bool, out: seq<Wire>, ghost sections: nat)
      modifies this
      ensures At(Job(to, addressLE), old(State()), sched, sections, Returned(result), out)
      ensures addressLE == [] ==> out == []
    {
      var job := Job(to, addressLE);
      var go;
      ghost var start := State();
      result := false;
      go, out, sections := RequestPhase(job, sched);
      if !go {
        return;
      }
      go, out, sections := StartPhase(job, sched, out, start);
      if !go {
        return;
      }
      sections := 5;
      result := AwaitAllTransfers(job, sched(4), out);
    }

    method GetLastData() returns (ok: bool, data: seq<Byte>)
      ensures ok <==> lastData != []
      ensures ok ==> data == lastData
    {
      if lastData == [] {
        return false, [];
      }
      return true, lastData;
    }
  }

  lemma StartBitmapIsFull(bitmap: seq<Byte>)
    requires |bitmap| == 8
    requires forall i: nat :: BitmapBitIsSet(bitmap, i) <==> i < 64
    ensures bitmap == ALL_BLOCKS
  {
    forall i: nat
      ensures BitmapBitIsSet(bitmap, i) == BitmapBitIsSet(ALL_BLOCKS, i)
    {
      AllBlocksSelected(i);
    }
    BitmapsWithSameBits(bitmap, ALL_BLOCKS);
  }
}
