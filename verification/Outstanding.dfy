/**
 * The slot of a synchronous telecommand or telemetry request under every interleaving of calling threads
 * and the thread that delivers frames. Each event is one mutex section, one send outside the mutex, or the
 * handling of one inbound message.
 */
module Outstanding {
  import opened CanTypes
  import opened Codec
  import opened ProtocolSpec
  import opened Sequences

  datatype Line = TelecommandLine | TelemetryLine

  /** A node and one of its two slots. */
  datatype Port = Port(me: Address, line: Line)

  /** Where one calling thread stands. */
  datatype Caller =
    | Idle
    | Holding(to: Address, channel: bv8)   // has claimed the slot, has not sent yet
    | Waiting(to: Address, channel: bv8)   // has sent, waits for the reply or the timeout
    | Finished(result: bool)

  datatype Response = Response(from: Address, kind: ReqAck, channel: bv8, data: Payload)

  /** An acknowledgement or refusal on this port; any other message is none. */
  function ReplyIn(port: Port, m: Message): Option<Response> {
    if m.to != port.me && m.to != BROADCAST then None
    else match m.body
      case Tc(kind, channel) =>
        if port.line.TelecommandLine? && (kind.Ack? || kind.Nack?)
        then Some(Response(m.from, kind, channel, m.data)) else None
      case Tm(kind, channel) =>
        if port.line.TelemetryLine? && (kind.Ack? || kind.Nack?)
        then Some(Response(m.from, kind, channel, m.data)) else None
      case _ => None
  }

  /** The message is a reply to the outstanding request. */
  predicate Hits(port: Port, slot: PendingTcTm, m: Message) {
    var r := ReplyIn(port, m);
    r.Some? && Matches(slot, r.value.from, r.value.kind, r.value.channel)
  }

  function Heed(port: Port, slot: PendingTcTm, m: Message): PendingTcTm {
    if Hits(port, slot, m) then slot.(done := true, ok := ReplyIn(port, m).value.kind.Ack?, data := m.data) else slot
  }

  function HeedCache(port: Port, slot: PendingTcTm, cache: Payload, m: Message): Payload {
    if Hits(port, slot, m) then m.data else cache
  }

  /** What any message does to the slots and the telemetry cache of a node is what its ports heed. */
  lemma DispatchHeeds(me: Address, st: Endpoint, m: Message, answers: Answers)
    ensures var after := Dispatch(me, st, m, answers).state;
            && after.tc == Heed(Port(me, TelecommandLine), st.tc, m)
            && after.tm == Heed(Port(me, TelemetryLine), st.tm, m)
            && after.telemetry == HeedCache(Port(me, TelemetryLine), st.tm, st.telemetry, m)
  {
  }

  /**
   * cache holds the payload of the last reply to an outstanding request. heard and sent are histories: the
   * replies handled since the slot was last claimed, and all requests sent.
   */
  datatype System = System(
    slot: PendingTcTm,
    cache: Payload,
    callers: map<nat, Caller>,
    heard: seq<Response>,
    sent: seq<(nat, Address, bv8)>)

  datatype Event =
    | Call(id: nat, to: Address, channel: bv8)
    | Send(id: nat, taken: bool)
    | Wake(id: nat)          // the wait is over: the reply is there, or the timeout has passed
    | Arrive(m: Message)

  predicate Enabled(s: System, e: Event) {
    match e
    case Call(id, _, _) => id in s.callers && (s.callers[id].Idle? || s.callers[id].Finished?)
    case Send(id, _) => id in s.callers && s.callers[id].Holding?
    case Wake(id) => id in s.callers && s.callers[id].Waiting?
    case Arrive(_) => true
  }

  function HeardAlso(port: Port, heard: seq<Response>, m: Message): seq<Response> {
    if ReplyIn(port, m).Some? then heard + [ReplyIn(port, m).value] else heard
  }

  function Apply(port: Port, s: System, e: Event): System
    requires Enabled(s, e)
  {
    match e
    case Call(id, to, channel) =>
      if s.slot.waiting then s.(callers := s.callers[id := Finished(false)])
      else s.(slot := ClaimedFor(to, channel), callers := s.callers[id := Holding(to, channel)], heard := [])
    case Send(id, taken) =>
      var c := s.callers[id];
      if taken then s.(callers := s.callers[id := Waiting(c.to, c.channel)], sent := s.sent + [(id, c.to, c.channel)])
      else s.(slot := FREE, callers := s.callers[id := Finished(false)])
    case Wake(id) =>
      s.(slot := FREE, callers := s.callers[id := Finished(s.slot.done && s.slot.ok)])
    case Arrive(m) =>
      s.(slot := Heed(port, s.slot, m), cache := HeedCache(port, s.slot, s.cache, m),
          heard := HeardAlso(port, s.heard, m))
  }

  predicate Owns(c: Caller) {
    c.Holding? || c.Waiting?
  }

  /** The verdict of the last reply from this peer on this channel, if any came. */
  function LastVerdict(heard: seq<Response>, to: Address, channel: bv8): Option<bool> {
    if heard == [] then None
    else
      var r := heard[|heard| - 1];
      if (r.kind.Ack? || r.kind.Nack?) && r.from == to && r.channel == channel then Some(r.kind.Ack?)
      else LastVerdict(heard[..|heard| - 1], to, channel)
  }

  /** The slot of a request to this peer and channel knows exactly the verdict of these replies. */
  predicate Knows(slot: PendingTcTm, to: Address, channel: bv8, heard: seq<Response>) {
    var verdict := LastVerdict(heard, to, channel);
    && slot.waiting && slot.peer == to && slot.channel == channel
    && slot.done == verdict.Some? && (verdict.Some? ==> slot.ok == verdict.value)
  }

  lemma HeedKnows(port: Port, slot: PendingTcTm, to: Address, channel: bv8, heard: seq<Response>, m: Message)
    requires Knows(slot, to, channel, heard)
    ensures Knows(Heed(port, slot, m), to, channel, HeardAlso(port, heard, m))
  {
    if ReplyIn(port, m).Some? {
      var r := ReplyIn(port, m).value;
      assert (heard + [r])[..|heard + [r]| - 1] == heard;
    }
  }

  /** This caller, and no other, owns the slot; the slot knows exactly the verdict heard for it. */
  ghost predicate OwnedBy(s: System, id: nat) {
    && id in s.callers && Owns(s.callers[id])
    && (forall other :: other in s.callers && Owns(s.callers[other]) ==> other == id)
    && Knows(s.slot, s.callers[id].to, s.callers[id].channel, s.heard)
  }

  ghost predicate Unowned(s: System) {
    !s.slot.waiting && forall id :: id in s.callers ==> !Owns(s.callers[id])
  }

  ghost predicate Inv(s: System) {
    Unowned(s) || exists id :: OwnedBy(s, id)
  }

  ghost predicate Initial(s: System) {
    && s.slot == FREE && s.cache == []
    && (forall id :: id in s.callers ==> s.callers[id] == Idle) && s.heard == [] && s.sent == []
  }

  lemma OwnerIs(s: System, id: nat)
    requires Inv(s) && id in s.callers && Owns(s.callers[id])
    ensures OwnedBy(s, id)
  {
  }

  // One lemma per event.

  lemma CallKeeps(port: Port, s: System, id: nat, to: Address, channel: bv8)
    requires Inv(s) && Enabled(s, Call(id, to, channel))
    ensures Inv(Apply(port, s, Call(id, to, channel)))
  {
    var after := Apply(port, s, Call(id, to, channel));
    if s.slot.waiting {
      var owner :| OwnedBy(s, owner);
      assert OwnedBy(after, owner);
    } else {
      assert Unowned(s);
      assert OwnedBy(after, id);
    }
  }

  lemma SendKeeps(port: Port, s: System, id: nat, taken: bool)
    requires Inv(s) && Enabled(s, Send(id, taken))
    ensures Inv(Apply(port, s, Send(id, taken)))
  {
    OwnerIs(s, id);
    var after := Apply(port, s, Send(id, taken));
    if taken {
      assert OwnedBy(after, id);
    } else {
      assert Unowned(after);
    }
  }

  lemma WakeKeeps(port: Port, s: System, id: nat)
    requires Inv(s) && Enabled(s, Wake(id))
    ensures Inv(Apply(port, s, Wake(id)))
  {
    OwnerIs(s, id);
    assert Unowned(Apply(port, s, Wake(id)));
  }

  lemma ArriveKeeps(port: Port, s: System, m: Message)
    requires Inv(s)
    ensures Inv(Apply(port, s, Arrive(m)))
  {
    var after := Apply(port, s, Arrive(m));
    if s.slot.waiting {
      var owner :| OwnedBy(s, owner);
      HeedKnows(port, s.slot, s.callers[owner].to, s.callers[owner].channel, s.heard, m);
      assert OwnedBy(after, owner);
    } else {
      assert Unowned(after);
    }
  }

  lemma StepKeeps(port: Port, s: System, e: Event)
    requires Inv(s) && Enabled(s, e)
    ensures Inv(Apply(port, s, e))
  {
    match e
    case Call(id, to, channel) => CallKeeps(port, s, id, to, channel);
    case Send(id, taken) => SendKeeps(port, s, id, taken);
    case Wake(id) => WakeKeeps(port, s, id);
    case Arrive(m) => ArriveKeeps(port, s, m);
  }

  ghost predicate Steps(port: Port, states: seq<System>, events: seq<Event>, i: nat)
    requires i < |events| && |states| == |events| + 1
  {
    Enabled(states[i], events[i]) && states[i + 1] == Apply(port, states[i], events[i])
  }

  ghost predicate IsRun(port: Port, states: seq<System>, events: seq<Event>) {
    && |states| == |events| + 1
    && Initial(states[0])
    && forall i :: 0 <= i < |events| ==> Steps(port, states, events, i)
  }

  lemma {:induction false} RunKeeps(port: Port, states: seq<System>, events: seq<Event>, i: nat)
    requires IsRun(port, states, events) && i < |states|
    ensures Inv(states[i])
  {
    if i > 0 {
      RunKeeps(port, states, events, i - 1);
      assert Steps(port, states, events, i - 1);
      StepKeeps(port, states[i - 1], events[i - 1]);
    }
  }

  /** In every interleaving the slot is taken exactly while one caller, and only one, owns it. */
  lemma OneOutstanding(port: Port, states: seq<System>, events: seq<Event>, i: nat)
    requires IsRun(port, states, events) && i < |states|
    ensures states[i].slot.waiting <==> exists id :: id in states[i].callers && Owns(states[i].callers[id])
    ensures forall x, y | x in states[i].callers && y in states[i].callers ::
              Owns(states[i].callers[x]) && Owns(states[i].callers[y]) ==> x == y
  {
    RunKeeps(port, states, events, i);
    if states[i].slot.waiting {
      var id :| OwnedBy(states[i], id);
      assert Owns(states[i].callers[id]);
    }
  }

  /** A call while another one is outstanding returns false at once, sends nothing and disturbs nothing. */
  lemma SecondCallIsRefused(port: Port, states: seq<System>, events: seq<Event>, i: nat)
    requires IsRun(port, states, events) && i < |events| && events[i].Call?
    requires exists id :: id in states[i].callers && Owns(states[i].callers[id])
    ensures states[i + 1] == states[i].(callers := states[i].callers[events[i].id := Finished(false)])
    ensures events[i].id in states[i].callers && !Owns(states[i].callers[events[i].id])
  {
    assert Steps(port, states, events, i);
    OneOutstanding(port, states, events, i);
  }

  lemma WakeVerdict(port: Port, states: seq<System>, events: seq<Event>, i: nat)
    requires IsRun(port, states, events) && i < |events| && events[i].Wake?
    ensures events[i].id in states[i].callers && events[i].id in states[i + 1].callers
        && states[i].callers[events[i].id].Waiting?
    ensures var c := states[i].callers[events[i].id];
            && states[i + 1].callers[events[i].id]
                == Finished(LastVerdict(states[i].heard, c.to, c.channel) == Some(true))
            && states[i + 1].slot == FREE
  {
    assert Steps(port, states, events, i);
    RunKeeps(port, states, events, i);
    OwnerIs(states[i], events[i].id);
  }

  /** The replies among some messages, in order. */
  function RepliesIn(port: Port, ms: seq<Message>): seq<Response> {
    if ms == [] then [] else HeardAlso(port, RepliesIn(port, ms[..|ms| - 1]), Last(ms))
  }

  /** The messages that arrive among some events, in order. */
  function Arrivals(events: seq<Event>): seq<Message> {
    if events == [] then []
    else Arrivals(events[..|events| - 1]) + if Last(events).Arrive? then [Last(events).m] else []
  }

  lemma OwnerStays(port: Port, s: System, e: Event, id: nat)
    requires OwnedBy(s, id) && Enabled(s, e)
    requires id in Apply(port, s, e).callers && Owns(Apply(port, s, e).callers[id])
    ensures var before, after := s.callers[id], Apply(port, s, e).callers[id];
            after.to == before.to && after.channel == before.channel
    ensures Apply(port, s, e).heard == if e.Arrive? then HeardAlso(port, s.heard, e.m) else s.heard
  {
  }

  lemma MoreArrivals(port: Port, events: seq<Event>, e: Event)
    ensures RepliesIn(port, Arrivals(events + [e]))
         == if e.Arrive? then HeardAlso(port, RepliesIn(port, Arrivals(events)), e.m)
             else RepliesIn(port, Arrivals(events))
  {
    assert (events + [e])[..|events + [e]| - 1] == events;
    if e.Arrive? {
      var ms := Arrivals(events);
      assert (ms + [e.m])[..|ms + [e.m]| - 1] == ms;
    } else {
      assert Arrivals(events) + [] == Arrivals(events);
    }
  }

  predicate Has(s: System, id: nat, to: Address, channel: bv8) {
    id in s.callers && Owns(s.callers[id]) && s.callers[id].to == to && s.callers[id].channel == channel
  }

  lemma HasStill(port: Port, s: System, e: Event, id: nat, to: Address, channel: bv8)
    requires Inv(s) && Enabled(s, e) && Has(s, id, to, channel)
    requires id in Apply(port, s, e).callers && Owns(Apply(port, s, e).callers[id])
    ensures Has(Apply(port, s, e), id, to, channel)
    ensures Apply(port, s, e).heard == if e.Arrive? then HeardAlso(port, s.heard, e.m) else s.heard
  {
    OwnerIs(s, id);
    OwnerStays(port, s, e, id);
  }

  /** From its claim up to state i this caller holds the slot. */
  ghost predicate Holds(states: seq<System>, events: seq<Event>, claim: nat, i: nat)
    requires claim < |events| && i < |states|
  {
    && events[claim].Call? && claim < |states| && !states[claim].slot.waiting
    && forall j :: claim < j <= i ==> events[claim].id in states[j].callers && Owns(states[j].callers[events[claim].id])
  }

  lemma ClaimStep(port: Port, s: System, e: Event)
    requires e.Call? && Enabled(s, e) && !s.slot.waiting
    ensures Has(Apply(port, s, e), e.id, e.to, e.channel) && Apply(port, s, e).heard == []
  {
  }

  /** The claimant still has the slot, and has heard every reply since its claim. */
  ghost predicate HasHeard(port: Port, s: System, events: seq<Event>, claim: nat, i: nat)
    requires claim < i <= |events| && events[claim].Call?
  {
    && Has(s, events[claim].id, events[claim].to, events[claim].channel)
    && s.heard == RepliesIn(port, Arrivals(events[claim + 1..i]))
  }

  lemma HeardMore(port: Port, s: System, e: Event, seen: seq<Event>, id: nat, to: Address, channel: bv8)
    requires Inv(s) && Enabled(s, e) && Has(s, id, to, channel) && s.heard == RepliesIn(port, Arrivals(seen))
    requires id in Apply(port, s, e).callers && Owns(Apply(port, s, e).callers[id])
    ensures Has(Apply(port, s, e), id, to, channel)
    ensures Apply(port, s, e).heard == RepliesIn(port, Arrivals(seen + [e]))
  {
    HasStill(port, s, e, id, to, channel);
    MoreArrivals(port, seen, e);
  }

  lemma OneMoreEvent(events: seq<Event>, from: nat, i: nat)
    requires from <= i < |events|
    ensures events[from..i + 1] == events[from..i] + [events[i]]
  {
  }

  lemma HeardAt(port: Port, s: System, after: System, events: seq<Event>, claim: nat, i: nat)
    requires claim < i < |events| && events[claim].Call? && HasHeard(port, s, events, claim, i)
    requires Inv(s) && Enabled(s, events[i]) && after == Apply(port, s, events[i])
    requires events[claim].id in after.callers && Owns(after.callers[events[claim].id])
    ensures HasHeard(port, after, events, claim, i + 1)
  {
    var c, e := events[claim], events[i];
    OneMoreEvent(events, claim + 1, i);
    HeardMore(port, s, e, events[claim + 1..i], c.id, c.to, c.channel);
  }

  /** While a caller holds the slot, its peer and channel stand still and every reply that arrives is heard. */
  lemma {:induction false} HeardSinceClaim(port: Port, states: seq<System>, events: seq<Event>, claim: nat, i: nat)
    requires IsRun(port, states, events) && claim < i < |states| && Holds(states, events, claim, i)
    ensures HasHeard(port, states[i], events, claim, i)
  {
    assert Steps(port, states, events, i - 1);
    if i == claim + 1 {
      ClaimStep(port, states[claim], events[claim]);
    } else {
      HeardSinceClaim(port, states, events, claim, i - 1);
      RunKeeps(port, states, events, i - 1);
      HeardAt(port, states[i - 1], states[i], events, claim, i - 1);
    }
  }

  /**
   * A granted call whose frame is not taken returns false. One that ends by waking returns true exactly if
   * the last reply from its peer on its channel, among all that arrived since it claimed the slot, was an
   * acknowledgement. Both free the slot.
   */
  lemma CallOutcome(port: Port, states: seq<System>, events: seq<Event>, claim: nat, i: nat)
    requires IsRun(port, states, events) && claim < i < |events| && Holds(states, events, claim, i)
    requires events[i] == Wake(events[claim].id) || events[i] == Send(events[claim].id, false)
    ensures states[i + 1].slot == FREE
    ensures events[claim].id in states[i + 1].callers
    ensures states[i + 1].callers[events[claim].id]
         == Finished(events[i].Wake?
                     && LastVerdict(RepliesIn(port, Arrivals(events[claim + 1..i])), events[claim].to,
                         events[claim].channel) == Some(true))
  {
    assert Steps(port, states, events, i);
    HeardSinceClaim(port, states, events, claim, i);
    if events[i].Wake? {
      WakeVerdict(port, states, events, i);
    }
  }

  // ---------- One call by itself ----------

  /** The events one after the other; those that are not enabled are skipped. */
  function Play(port: Port, s: System, events: seq<Event>): System {
    if events == [] then s
    else
      var before := Play(port, s, events[..|events| - 1]);
      if Enabled(before, Last(events)) then Apply(port, before, Last(events)) else before
  }

  lemma PlayOne(port: Port, s: System, events: seq<Event>, e: Event)
    ensures var before := Play(port, s, events);
            Play(port, s, events + [e]) == if Enabled(before, e) then Apply(port, before, e) else before
  {
    assert (events + [e])[..|events + [e]| - 1] == events;
  }

  function Coming(ms: seq<Message>): seq<Event> {
    seq(|ms|, i requires 0 <= i < |ms| => Arrive(ms[i]))
  }

  function SlotAfter(port: Port, slot: PendingTcTm, ms: seq<Message>): PendingTcTm {
    if ms == [] then slot else Heed(port, SlotAfter(port, slot, ms[..|ms| - 1]), Last(ms))
  }

  function CacheAfter(port: Port, slot: PendingTcTm, cache: Payload, ms: seq<Message>): Payload {
    if ms == [] then cache
    else
      var less := ms[..|ms| - 1];
      HeedCache(port, SlotAfter(port, slot, less), CacheAfter(port, slot, cache, less), Last(ms))
  }

  /** What any messages do to the slots and the telemetry cache of a node is what its ports heed. */
  lemma {:induction false} HearHeeds(me: Address, st: Endpoint, ins: seq<Arrival>)
    ensures var after, ms := Hear(me, st, ins).state, Messages(ins);
            && after.tc == SlotAfter(Port(me, TelecommandLine), st.tc, ms)
            && after.tm == SlotAfter(Port(me, TelemetryLine), st.tm, ms)
            && after.telemetry == CacheAfter(Port(me, TelemetryLine), st.tm, st.telemetry, ms)
  {
    if ins != [] {
      var less, last := ins[..|ins| - 1], Last(ins);
      HearHeeds(me, st, less);
      assert Messages(ins)[..|ins| - 1] == Messages(less);
      DispatchHeeds(me, Hear(me, st, less).state, last.m, last.answers);
    }
  }

  lemma {:induction false} SlotKnows(port: Port, to: Address, channel: bv8, ms: seq<Message>)
    ensures Knows(SlotAfter(port, ClaimedFor(to, channel), ms), to, channel, RepliesIn(port, ms))
  {
    if ms != [] {
      var less := ms[..|ms| - 1];
      SlotKnows(port, to, channel, less);
      HeedKnows(port, SlotAfter(port, ClaimedFor(to, channel), less), to, channel, RepliesIn(port, less), Last(ms));
    }
  }

  lemma {:induction false} SlotAfterConcat(
      port: Port, slot: PendingTcTm, cache: Payload, x: seq<Message>, y: seq<Message>)
    ensures SlotAfter(port, slot, x + y) == SlotAfter(port, SlotAfter(port, slot, x), y)
    ensures CacheAfter(port, slot, cache, x + y)
        == CacheAfter(port, SlotAfter(port, slot, x), CacheAfter(port, slot, cache, x), y)
  {
    if y == [] {
      assert x + y == x;
    } else {
      assert (x + y)[..|x + y| - 1] == x + y[..|y| - 1];
      SlotAfterConcat(port, slot, cache, x, y[..|y| - 1]);
    }
  }

  lemma {:induction false} PlayComing(port: Port, s: System, events: seq<Event>, ms: seq<Message>)
    ensures var before, after := Play(port, s, events), Play(port, s, events + Coming(ms));
            && after.slot == SlotAfter(port, before.slot, ms)
                && after.cache == CacheAfter(port, before.slot, before.cache, ms)
            && after.callers == before.callers && after.sent == before.sent
  {
    if ms == [] {
      assert events + Coming(ms) == events;
    } else {
      var less := ms[..|ms| - 1];
      PlayComing(port, s, events, less);
      assert events + Coming(ms) == events + Coming(less) + [Arrive(Last(ms))];
      PlayOne(port, s, events + Coming(less), Arrive(Last(ms)));
    }
  }

  /** The sections of one call, with the messages that arrive before its frame is sent and before it wakes. */
  function Sections(
      to: Address, channel: bv8, busy: bool, taken: bool, beforeSend: seq<Message>,
      beforeWake: seq<Message>): seq<Event> {
    if busy then [Call(0, to, channel)]
    else
      [Call(0, to, channel)] + Coming(beforeSend) + [Send(0, taken)]
      + if taken then Coming(beforeWake) + [Wake(0)] else []
  }

  function Alone(slot: PendingTcTm, cache: Payload): System {
    System(slot, cache, map[0 := Idle], [], [])
  }

  /** The messages a call sees while it owns the slot. */
  function WhileOwned(taken: bool, beforeSend: seq<Message>, beforeWake: seq<Message>): seq<Message> {
    if taken then beforeSend + beforeWake else beforeSend
  }

  lemma GrantedUntilSend(
      port: Port, slot: PendingTcTm, cache: Payload, to: Address, channel: bv8, taken: bool,
      beforeSend: seq<Message>)
    requires !slot.waiting
    ensures var s := Play(port, Alone(slot, cache), [Call(0, to, channel)] + Coming(beforeSend) + [Send(0, taken)]);
            && s.slot == (if taken then SlotAfter(port, ClaimedFor(to, channel), beforeSend) else FREE)
            && s.cache == CacheAfter(port, ClaimedFor(to, channel), cache, beforeSend)
            && s.callers == map[0 := if taken then Waiting(to, channel) else Finished(false)]
  {
    assert [Call(0, to, channel)] == [] + [Call(0, to, channel)];
    PlayOne(port, Alone(slot, cache), [], Call(0, to, channel));
    PlayComing(port, Alone(slot, cache), [Call(0, to, channel)], beforeSend);
    PlayOne(port, Alone(slot, cache), [Call(0, to, channel)] + Coming(beforeSend), Send(0, taken));
  }

  lemma WakesAfter(
      port: Port, s: System, to: Address, channel: bv8, beforeSend: seq<Message>, events: seq<Event>,
      beforeWake: seq<Message>)
    requires var sent := Play(port, s, events);
             sent.slot == SlotAfter(port, ClaimedFor(to, channel), beforeSend)
                 && sent.callers == map[0 := Waiting(to, channel)]
    ensures var end, seen := Play(port, s, events + Coming(beforeWake) + [Wake(0)]), beforeSend + beforeWake;
            && end.slot == FREE
            && end.cache == CacheAfter(port, Play(port, s, events).slot, Play(port, s, events).cache, beforeWake)
            && end.callers == map[0 := Finished(LastVerdict(RepliesIn(port, seen), to, channel) == Some(true))]
  {
    PlayComing(port, s, events, beforeWake);
    PlayOne(port, s, events + Coming(beforeWake), Wake(0));
    SlotAfterConcat(port, ClaimedFor(to, channel), [], beforeSend, beforeWake);
    SlotKnows(port, to, channel, beforeSend + beforeWake);
  }

  /** One call by itself, section by section: its result, the slot and the cache it leaves. */
  lemma OneCall(
      port: Port, slot: PendingTcTm, cache: Payload, to: Address, channel: bv8, taken: bool,
      beforeSend: seq<Message>, beforeWake: seq<Message>)
    requires !slot.waiting
    ensures var s := Play(port, Alone(slot, cache), Sections(to, channel, false, taken, beforeSend, beforeWake));
            var seen := WhileOwned(taken, beforeSend, beforeWake);
            && s.slot == FREE && s.cache == CacheAfter(port, ClaimedFor(to, channel), cache, seen)
            && s.callers == map[0 := Finished(taken && LastVerdict(RepliesIn(port, seen), to, channel) == Some(true))]
  {
    var events := [Call(0, to, channel)] + Coming(beforeSend) + [Send(0, taken)];
    GrantedUntilSend(port, slot, cache, to, channel, taken, beforeSend);
    if taken {
      WakesAfter(port, Alone(slot, cache), to, channel, beforeSend, events, beforeWake);
      assert events + (Coming(beforeWake) + [Wake(0)]) == events + Coming(beforeWake) + [Wake(0)];
      SlotAfterConcat(port, ClaimedFor(to, channel), cache, beforeSend, beforeWake);
    } else {
      assert events + [] == events;
    }
  }

  lemma RefusedCall(port: Port, slot: PendingTcTm, cache: Payload, to: Address, channel: bv8)
    requires slot.waiting
    ensures Play(port, Alone(slot, cache), [Call(0, to, channel)])
        == Alone(slot, cache).(callers := map[0 := Finished(false)])
  {
    assert [Call(0, to, channel)] == [] + [Call(0, to, channel)];
    PlayOne(port, Alone(slot, cache), [], Call(0, to, channel));
  }
}
