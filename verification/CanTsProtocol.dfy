/** The protocol endpoint: routes frames, answers telecommands and telemetry requests, and runs synchronous requests. */
module CanTsProtocol {
  import opened CanTypes
  import opened Codec
  import opened ProtocolSpec
  import SetSpec = SetBlockSpec
  import GetSpec = GetBlockSpec
  import SetMgr = SetBlockManager
  import GetMgr = GetBlockManager
  import opened Outstanding

  datatype Status = Success | Unsuccess

  function Understood(frames: seq<CanFrame>): (ms: seq<Message>)
    ensures |ms| == |frames|
  {
    seq(|frames|, i requires 0 <= i < |frames| => Understand(frames[i]))
  }

  lemma UnderstoodConcat(x: seq<CanFrame>, y: seq<CanFrame>)
    ensures Understood(x + y) == Understood(x) + Understood(y)
  {
  }

  /** Identifiers of 29 bits. The payload type already bounds the length. */
  ghost predicate OnBus(frames: seq<CanFrame>) {
    forall i :: 0 <= i < |frames| ==> frames[i].id < 0x2000_0000
  }

  /** An inbound frame, and the application's answers if it is consulted. */
  datatype FrameIn = FrameIn(frame: CanFrame, answers: Answers)

  function Arriving(ins: seq<FrameIn>): (arrivals: seq<Arrival>)
    ensures |arrivals| == |ins|
  {
    seq(|ins|, i requires 0 <= i < |ins| => Arrival(Understand(ins[i].frame), ins[i].answers))
  }

  /** Encodes a header and a payload for the transmitter. */
  method ToFrame(h: Header, data: Payload) returns (frame: CanFrame)
    requires FitsIdentifier(h)
    ensures frame.id < 0x2000_0000
    ensures Understand(frame) == HeaderMessage(h, data)
  {
    var id := EncodeHeader(h);
    FramesAreUnderstood(h, data);
    frame := CanFrame(id, data);
  }

  /** Encodes the frames of the write manager. */
  method EncodeSetFrames(wires: seq<Wire>) returns (frames: seq<CanFrame>)
    requires SetMgr.Sendable(wires)
    ensures Understood(frames) == FromSet(SetMgr.Packets(wires))
    ensures OnBus(frames)
  {
    frames := [];
    for i := 0 to |wires|
      invariant |frames| == i && OnBus(frames)
      invariant forall j :: 0 <= j < i ==> Understand(frames[j]) == HeaderMessage(wires[j].header, wires[j].data)
    {
      var frame := ToFrame(wires[i].header, wires[i].data);
      frames := frames + [frame];
    }
  }

  /** Encodes the frames of the read manager. */
  method EncodeGetFrames(wires: seq<Wire>) returns (frames: seq<CanFrame>)
    requires GetMgr.Sendable(wires)
    ensures Understood(frames) == FromGet(GetMgr.Packets(wires))
    ensures OnBus(frames)
  {
    frames := [];
    for i := 0 to |wires|
      invariant |frames| == i && OnBus(frames)
      invariant forall j :: 0 <= j < i ==> Understand(frames[j]) == HeaderMessage(wires[j].header, wires[j].data)
    {
      var frame := ToFrame(wires[i].header, wires[i].data);
      frames := frames + [frame];
    }
  }

  class CanTsProtocol {
    const localAddress: Address
    const setBlockMgr: SetMgr.SetBlockManager
    const getBlockMgr: GetMgr.GetBlockManager
    const lastTelemetry: array<Byte>
    var lastTelemetryDlc: nat
    var pendingTc: PendingTcTm
    var pendingTm: PendingTcTm

    ghost predicate Valid()
      reads this
    {
      && lastTelemetry.Length == 8 && lastTelemetryDlc <= 8
      && setBlockMgr.localAddress == localAddress && getBlockMgr.localAddress == localAddress
    }

    /** The cached telemetry. */
    function Telemetry(): Payload
      requires Valid()
      reads this, lastTelemetry
    {
      lastTelemetry[..lastTelemetryDlc]
    }

    function State(): Endpoint
      requires Valid()
      reads this, setBlockMgr, getBlockMgr, lastTelemetry
    {
      Endpoint(pendingTc, pendingTm, Telemetry(), setBlockMgr.State(), getBlockMgr.State())
    }

    constructor (localAddress: Address)
      ensures Valid() && this.localAddress == localAddress
      ensures State() == Endpoint(FREE, FREE, [], SetSpec.Node(map[], SetSpec.CLEARED),
          GetSpec.Node(map[], GetSpec.CLEARED, []))
      ensures fresh(setBlockMgr) && fresh(getBlockMgr) && fresh(lastTelemetry)
    {
      this.localAddress := localAddress;
      setBlockMgr := new SetMgr.SetBlockManager(localAddress);
      getBlockMgr := new GetMgr.GetBlockManager(localAddress);
      lastTelemetry := new Byte[8](_ => 0);
      lastTelemetryDlc := 0;
      pendingTc, pendingTm := FREE, FREE;
    }

    /**
     * Decodes and routes one inbound frame; out holds the frames it sends in answer, consulted what it asks
     * handlers.
     */
    method OnFrame(
        frame: CanFrame, answers: Answers) returns (status: Status, out: seq<CanFrame>, consulted: seq<Consultation>)
      requires Valid()
      modifies this, setBlockMgr, getBlockMgr, lastTelemetry
      ensures Valid()
      ensures var o := Dispatch(localAddress, old(State()), Understand(frame), answers);
              State() == o.state && Understood(out) == o.replies && consulted == o.consulted
      ensures OnBus(out)
      ensures status.Unsuccess? <==> Understand(frame).to != localAddress && Understand(frame).to != BROADCAST
    {
      var header := Decode(frame.id);
      out, consulted := [], [];
      if header.to != localAddress && header.to != BROADCAST {
        return Unsuccess, [], [];
      }
      if header.mtype == TELECOMMAND {
        out, consulted := HandleTelecommand(header, frame.data, answers);
      } else if header.mtype == TELEMETRY {
        out, consulted := HandleTelemetry(header, frame.data, answers);
      } else if header.mtype == SETBLOCK {
        out, consulted := HandleSetBlock(header, frame.data, answers);
      } else if header.mtype == GETBLOCK {
        out, consulted := HandleGetBlock(header, frame.data, answers);
      }
      return Success, out, consulted;
    }

    method HandleSetBlock(
        h: Header, data: Payload, answers: Answers) returns (out: seq<CanFrame>, consulted: seq<Consultation>)
      requires Valid()
      modifies setBlockMgr
      ensures Valid()
      ensures var r := SetSpec.React(localAddress, old(State()).setBlock, h.from, DecodeSet(h.command), data,
          answers.setBlock);
              State() == old(State()).(setBlock := r.node) && Understood(out) == FromSet(r.replies)
                  && consulted == Writes(r.deliveries, answers.setBlock)
      ensures OnBus(out)
    {
      var wires, deliveries := setBlockMgr.OnFrame(h, data, answers.setBlock);
      consulted := Writes(deliveries, answers.setBlock);
      out := EncodeSetFrames(wires);
    }

    method HandleGetBlock(
        h: Header, data: Payload, answers: Answers) returns (out: seq<CanFrame>, consulted: seq<Consultation>)
      requires Valid()
      modifies getBlockMgr
      ensures Valid()
      ensures var r := GetSpec.React(localAddress, old(State()).getBlock, h.from, DecodeGet(h.command), data,
          answers.getBlock);
              State() == old(State()).(getBlock := r.node) && Understood(out) == FromGet(r.replies)
              && consulted == Reads(h.from, DecodeGet(h.command).kind, answers.getBlock)
      ensures OnBus(out)
    {
      var wires, served, asked := getBlockMgr.OnFrame(h, data, answers.getBlock);
      consulted := seq(|asked|, i requires 0 <= i < |asked| => AskRead(asked[i]));
      out := EncodeGetFrames(wires);
    }

    method HandleTelecommand(
        h: Header, data: Payload, answers: Answers) returns (out: seq<CanFrame>, consulted: seq<Consultation>)
      requires Valid() && h.mtype == TELECOMMAND
      modifies this`pendingTc
      ensures Valid()
      ensures var o := OnTc(localAddress, old(State()), HeaderMessage(h, data), answers);
              State() == o.state && Understood(out) == o.replies && consulted == o.consulted
      ensures OnBus(out)
    {
      out, consulted := [], [];
      var kind, channel := GetTcTmKind(h.command), GetChannel(h.command);
      if kind.Req? {
        if answers.tc.TcVerdict? {
          consulted := [AskTelecommand(h.from, channel, InBuffer(data))];
        }
        var answer := if Executes(answers) then ReqAck.Ack else ReqAck.Nack;
        TcTmCommandRoundTrip(answer, channel);
        var frame := ToFrame(Header(h.from, localAddress, TELECOMMAND, MakeTcTmCommand(answer, channel)), data);
        out := [frame];
      } else if kind.Ack? || kind.Nack? {
        if pendingTc.waiting && pendingTc.peer == h.from && pendingTc.channel == channel {
          pendingTc := pendingTc.(done := true, ok := kind.Ack?, data := data);
        }
      }
    }

    method HandleTelemetry(
        h: Header, data: Payload, answers: Answers) returns (out: seq<CanFrame>, consulted: seq<Consultation>)
      requires Valid() && h.mtype == TELEMETRY
      modifies this`pendingTm, this`lastTelemetryDlc, lastTelemetry
      ensures Valid()
      ensures var o := OnTm(localAddress, old(State()), HeaderMessage(h, data), answers);
              State() == o.state && Understood(out) == o.replies && consulted == o.consulted
      ensures OnBus(out)
    {
      out, consulted := [], [];
      var kind, channel := GetTcTmKind(h.command), GetChannel(h.command);
      if kind.Req? {
        if !answers.tm.NoTmHandler? {
          consulted := [AskTelemetry(h.from, channel)];
        }
        var ok := answers.tm.TmGiven?;
        var answer := if ok then ReqAck.Ack else ReqAck.Nack;
        TcTmCommandRoundTrip(answer, channel);
        var frame := ToFrame(Header(h.from, localAddress, TELEMETRY, MakeTcTmCommand(answer, channel)),
                             if ok then answers.tm.data else []);
        out := [frame];
      } else if kind.Ack? || kind.Nack? {
        if pendingTm.waiting && pendingTm.peer == h.from && pendingTm.channel == channel {
          pendingTm := pendingTm.(done := true, ok := kind.Ack?, data := data);
          StoreTelemetry(data);
        }
      }
    }

    /** Copies the reply over the front of the telemetry buffer. */
    method StoreTelemetry(data: Payload)
      requires Valid()
      modifies this`lastTelemetryDlc, lastTelemetry
      ensures Valid()
      ensures Telemetry() == data
      ensures lastTelemetry[lastTelemetryDlc..] == old(lastTelemetry[..])[|data|..]
    {
      for i := 0 to |data|
        invariant forall j :: 0 <= j < i ==> lastTelemetry[j] == data[j]
        invariant forall j :: i <= j < 8 ==> lastTelemetry[j] == old(lastTelemetry[j])
      {
        lastTelemetry[i] := data[i];
      }
      lastTelemetryDlc := |data|;
    }

    method GetLastTelemetry() returns (ok: bool, data: seq<Byte>)
      requires Valid()
      ensures ok <==> Telemetry() != []
      ensures ok ==> data == Telemetry()
      ensures (if ok then Some(data) else None) == Shown(Telemetry())
    {
      if lastTelemetryDlc == 0 {
        return false, [];
      }
      return true, lastTelemetry[..lastTelemetryDlc];
    }

    /** The node has handled these messages since start, and has sent and asked this because of them. */
    ghost predicate Heard(start: Endpoint, seen: seq<Arrival>, answered: seq<CanFrame>, consulted: seq<Consultation>)
      requires Valid()
      reads this, setBlockMgr, getBlockMgr, lastTelemetry
    {
      var o := Hear(localAddress, start, seen);
      State() == o.state && Understood(answered) == o.replies && consulted == o.consulted && OnBus(answered)
    }

    method HearFrame(
        f: FrameIn, answered: seq<CanFrame>, consulted: seq<Consultation>, ghost start: Endpoint,
        ghost seen: seq<Arrival>)
      returns (out: seq<CanFrame>, asked: seq<Consultation>)
      requires Valid() && Heard(start, seen, answered, consulted)
      modifies this, setBlockMgr, getBlockMgr, lastTelemetry
      ensures Valid() && Heard(start, seen + [Arrival(Understand(f.frame), f.answers)], out, asked)
    {
      var status, more, further := OnFrame(f.frame, f.answers);
      HearOne(localAddress, start, seen, Arrival(Understand(f.frame), f.answers),
          Outcome(State(), Understood(more), further));
      UnderstoodConcat(answered, more);
      out, asked := answered + more, consulted + further;
    }

    /** The frames another thread delivers between two sections of a call. */
    method HearFrames(
        ins: seq<FrameIn>, answered: seq<CanFrame>, consulted: seq<Consultation>, ghost start: Endpoint,
        ghost seen: seq<Arrival>)
      returns (out: seq<CanFrame>, asked: seq<Consultation>)
      requires Valid() && Heard(start, seen, answered, consulted)
      modifies this, setBlockMgr, getBlockMgr, lastTelemetry
      ensures Valid() && Heard(start, seen + Arriving(ins), out, asked)
    {
      out, asked := answered, consulted;
      assert seen + Arriving(ins[..0]) == seen;
      for i := 0 to |ins|
        invariant Valid() && Heard(start, seen + Arriving(ins[..i]), out, asked)
      {
        assert seen + Arriving(ins[..i + 1])
            == seen + Arriving(ins[..i]) + [Arrival(Understand(ins[i].frame), ins[i].answers)];
        out, asked := HearFrame(ins[i], out, asked, start, seen + Arriving(ins[..i]));
      }
      assert ins[..|ins|] == ins;
    }

    /** As Heard, except that the slot of a call is free again. */
    ghost predicate HeardFreed(
        line: Line, start: Endpoint, seen: seq<Arrival>, answered: seq<CanFrame>, consulted: seq<Consultation>)
      requires Valid()
      reads this, setBlockMgr, getBlockMgr, lastTelemetry
    {
      var o := Hear(localAddress, start, seen);
      && State() == (if line.TelecommandLine? then o.state.(tc := FREE) else o.state.(tm := FREE))
      && Understood(answered) == o.replies && consulted == o.consulted && OnBus(answered)
    }

    /** The last reply from this peer on this channel, among these messages, is an acknowledgement. */
    predicate Granted(line: Line, to: Address, channel: bv8, seen: seq<Arrival>) {
      LastVerdict(RepliesIn(Port(localAddress, line), Messages(seen)), to, channel) == Some(true)
    }

    /** Claims the free slot, after which these frames are handled. */
    method ClaimTelecommand(
        to: Address, channel: bv8, beforeSend: seq<FrameIn>)
      returns (answered: seq<CanFrame>, consulted: seq<Consultation>)
      requires Valid()
      modifies this, setBlockMgr, getBlockMgr, lastTelemetry
      ensures Valid() && Heard(old(State()).(tc := ClaimedFor(to, channel)), Arriving(beforeSend), answered, consulted)
    {
      ghost var start := State().(tc := ClaimedFor(to, channel));
      pendingTc := FREE.(waiting := true, peer := to, channel := channel);
      answered, consulted := HearFrames(beforeSend, [], [], start, []);
      assert [] + Arriving(beforeSend) == Arriving(beforeSend);
    }

    /** Waits for the acknowledgement of the telecommand that has claimed the slot. */
    method AwaitTelecommand(
        to: Address, channel: bv8, beforeWake: seq<FrameIn>, answered: seq<CanFrame>,
        consulted: seq<Consultation>,
                            ghost start: Endpoint, ghost seen: seq<Arrival>)
      returns (result: bool, out: seq<CanFrame>, asked: seq<Consultation>)
      requires Valid() && Heard(start, seen, answered, consulted) && start.tc == ClaimedFor(to, channel)
      modifies this, setBlockMgr, getBlockMgr, lastTelemetry
      ensures Valid() && HeardFreed(TelecommandLine, start, seen + Arriving(beforeWake), out, asked)
      ensures result <==> Granted(TelecommandLine, to, channel, seen + Arriving(beforeWake))
    {
      out, asked := HearFrames(beforeWake, answered, consulted, start, seen);
      ghost var all := seen + Arriving(beforeWake);
      HearHeeds(localAddress, start, all);
      SlotKnows(Port(localAddress, TelecommandLine), to, channel, Messages(all));
      result := pendingTc.done && pendingTc.ok;
      pendingTc := FREE;
    }

    /**
     * Sends a telecommand and waits for its acknowledgement. taken says whether the transmitter takes the
     * frame; any frames are delivered before the send and before the wait ends, and answered as usual.
     */
    method SendTelecommand(
        to: Address, channel: bv8, data: Buffer, taken: bool, beforeSend: seq<FrameIn>, beforeWake: seq<FrameIn>)
      returns (result: bool, sent: seq<CanFrame>, answered: seq<CanFrame>, consulted: seq<Consultation>)
      requires Valid()
      modifies this, setBlockMgr, getBlockMgr, lastTelemetry
      ensures Valid()
      ensures old(pendingTc.waiting) ==>
          !result && sent == [] && answered == [] && consulted == [] && State() == old(State())
      ensures !old(pendingTc.waiting) ==>
                var seen := Seen(taken, beforeSend, beforeWake);
                && HeardFreed(TelecommandLine, old(State()).(tc := ClaimedFor(to, channel)), seen, answered, consulted)
                && (result <==> taken && Granted(TelecommandLine, to, channel, seen))
                && Understood(sent) == if taken then [Message(to, localAddress, Tc(ReqAck.Req, channel), data)] else []
    {
      sent, answered, consulted := [], [], [];
      if pendingTc.waiting {
        return false, [], [], [];
      }
      ghost var start := State().(tc := ClaimedFor(to, channel));
      answered, consulted := ClaimTelecommand(to, channel, beforeSend);
      if !taken {
        pendingTc := FREE;
        return false, [], answered, consulted;
      }
      TcTmCommandRoundTrip(ReqAck.Req, channel);
      var frame := ToFrame(Header(to, localAddress, TELECOMMAND, MakeTcTmCommand(ReqAck.Req, channel)), data);
      sent := [frame];
      result, answered, consulted := AwaitTelecommand(to, channel, beforeWake, answered, consulted, start,
          Arriving(beforeSend));
    }

    /** Claims the free slot, after which these frames are handled. */
    method ClaimTelemetry(
        to: Address, channel: bv8, beforeSend: seq<FrameIn>)
      returns (answered: seq<CanFrame>, consulted: seq<Consultation>)
      requires Valid()
      modifies this, setBlockMgr, getBlockMgr, lastTelemetry
      ensures Valid() && Heard(old(State()).(tm := ClaimedFor(to, channel)), Arriving(beforeSend), answered, consulted)
    {
      ghost var start := State().(tm := ClaimedFor(to, channel));
      pendingTm := FREE.(waiting := true, peer := to, channel := channel);
      answered, consulted := HearFrames(beforeSend, [], [], start, []);
      assert [] + Arriving(beforeSend) == Arriving(beforeSend);
    }

    /** Waits for the reply to the telemetry request that has claimed the slot. */
    method AwaitTelemetry(
        to: Address, channel: bv8, beforeWake: seq<FrameIn>, answered: seq<CanFrame>,
        consulted: seq<Consultation>,
                          ghost start: Endpoint, ghost seen: seq<Arrival>)
      returns (result: bool, out: seq<CanFrame>, asked: seq<Consultation>)
      requires Valid() && Heard(start, seen, answered, consulted) && start.tm == ClaimedFor(to, channel)
      modifies this, setBlockMgr, getBlockMgr, lastTelemetry
      ensures Valid() && HeardFreed(TelemetryLine, start, seen + Arriving(beforeWake), out, asked)
      ensures result <==> Granted(TelemetryLine, to, channel, seen + Arriving(beforeWake))
    {
      out, asked := HearFrames(beforeWake, answered, consulted, start, seen);
      ghost var all := seen + Arriving(beforeWake);
      HearHeeds(localAddress, start, all);
      SlotKnows(Port(localAddress, TelemetryLine), to, channel, Messages(all));
      result := pendingTm.done && pendingTm.ok;
      pendingTm := FREE;
    }

    /** Asks for telemetry and waits for the reply; the cache is kept by the frames it handles meanwhile. */
    method RequestTelemetry(to: Address, channel: bv8, taken: bool, beforeSend: seq<FrameIn>, beforeWake: seq<FrameIn>)
      returns (result: bool, sent: seq<CanFrame>, answered: seq<CanFrame>, consulted: seq<Consultation>)
      requires Valid()
      modifies this, setBlockMgr, getBlockMgr, lastTelemetry
      ensures Valid()
      ensures old(pendingTm.waiting) ==>
          !result && sent == [] && answered == [] && consulted == [] && State() == old(State())
      ensures !old(pendingTm.waiting) ==>
                var seen := Seen(taken, beforeSend, beforeWake);
                && HeardFreed(TelemetryLine, old(State()).(tm := ClaimedFor(to, channel)), seen, answered, consulted)
                && (result <==> taken && Granted(TelemetryLine, to, channel, seen))
                && Understood(sent) == if taken then [Message(to, localAddress, Tm(ReqAck.Req, channel), [])] else []
    {
      sent, answered, consulted := [], [], [];
      if pendingTm.waiting {
        return false, [], [], [];
      }
      ghost var start := State().(tm := ClaimedFor(to, channel));
      answered, consulted := ClaimTelemetry(to, channel, beforeSend);
      if !taken {
        pendingTm := FREE;
        return false, [], answered, consulted;
      }
      TcTmCommandRoundTrip(ReqAck.Req, channel);
      var frame := ToFrame(Header(to, localAddress, TELEMETRY, MakeTcTmCommand(ReqAck.Req, channel)), []);
      sent := [frame];
      result, answered, consulted := AwaitTelemetry(to, channel, beforeWake, answered, consulted, start,
          Arriving(beforeSend));
    }
  }

  /** The messages a call handles while it owns its slot. */
  function Seen(taken: bool, beforeSend: seq<FrameIn>, beforeWake: seq<FrameIn>): seq<Arrival> {
    if taken then Arriving(beforeSend) + Arriving(beforeWake) else Arriving(beforeSend)
  }

  /** The sections of this call as events: what another thread could see of it. */
  function CallEvents(
      to: Address, channel: bv8, busy: bool, taken: bool, beforeSend: seq<FrameIn>,
      beforeWake: seq<FrameIn>): seq<Event> {
    Sections(to, channel, busy, taken, Messages(Arriving(beforeSend)), Messages(Arriving(beforeWake)))
  }

  lemma MessagesSeen(taken: bool, beforeSend: seq<FrameIn>, beforeWake: seq<FrameIn>)
    ensures Messages(Seen(taken, beforeSend, beforeWake))
         == WhileOwned(taken, Messages(Arriving(beforeSend)), Messages(Arriving(beforeWake)))
  {
  }

  /** While a telemetry request is outstanding, messages keep the cache as its events say. */
  lemma CacheRefinesEvents(me: Address, before: Endpoint, to: Address, channel: bv8, seen: seq<Arrival>)
    ensures Hear(me, before.(tm := ClaimedFor(to, channel)), seen).state.telemetry
         == CacheAfter(Port(me, TelemetryLine), ClaimedFor(to, channel), before.telemetry, Messages(seen))
  {
    HearHeeds(me, before.(tm := ClaimedFor(to, channel)), seen);
  }

  /**
   * What the two methods do to their slot, to the telemetry cache and in result is what the events Call, Send,
   * Wake and Arrive do, so what holds in every interleaving of those holds of the methods.
   */
  lemma CallRefinesEvents(
    me: Address, line: Line, before: Endpoint, to: Address, channel: bv8, taken: bool,
    beforeSend: seq<FrameIn>, beforeWake: seq<FrameIn>)
    ensures var port, slot := Port(me, line), if line.TelecommandLine? then before.tc else before.tm;
            var seen := Seen(taken, beforeSend, beforeWake);
            var events := CallEvents(to, channel, slot.waiting, taken, beforeSend, beforeWake);
            var end := Play(port, Alone(slot, before.telemetry), events);
            && end.slot == (if slot.waiting then slot else FREE)
            && end.callers == map[0 := Finished(!slot.waiting && taken
                                                && LastVerdict(RepliesIn(port, Messages(seen)), to, channel)
                                                    == Some(true))]
            && (line.TelemetryLine? ==>
                  end.cache == if slot.waiting then before.telemetry
                               else Hear(me, before.(tm := ClaimedFor(to, channel)), seen).state.telemetry)
  {
    var port, slot := Port(me, line), if line.TelecommandLine? then before.tc else before.tm;
    if slot.waiting {
      RefusedCall(port, slot, before.telemetry, to, channel);
    } else {
      MessagesSeen(taken, beforeSend, beforeWake);
      OneCall(port, slot, before.telemetry, to, channel, taken, Messages(Arriving(beforeSend)),
          Messages(Arriving(beforeWake)));
      CacheRefinesEvents(me, before, to, channel, Seen(taken, beforeSend, beforeWake));
    }
  }
}
