/** What the cached telemetry is worth: over every history of requests, replies and refusals. */
module TelemetryCache {
  import opened CanTypes
  import opened Codec
  import opened ProtocolSpec
  import opened Outstanding

  /** Event i answers the request that is outstanding when it comes. */
  predicate AnsweredAt(port: Port, states: seq<System>, events: seq<Event>, i: nat, good: bool)
    requires |states| == |events| + 1 && i < |events|
  {
    && events[i].Arrive? && Hits(port, states[i].slot, events[i].m)
    && ReplyIn(port, events[i].m).value.kind.Ack? == good
  }

  /** The payload of the last acknowledgement of an outstanding request among the first i events. */
  function LastSuccess(port: Port, states: seq<System>, events: seq<Event>, i: nat): Payload
    requires |states| == |events| + 1 && i <= |events|
  {
    if i == 0 then []
    else if AnsweredAt(port, states, events, i - 1, true) then events[i - 1].m.data
    else LastSuccess(port, states, events, i - 1)
  }

  /** The payload of the last refusal of an outstanding request. */
  function LastRefusal(port: Port, states: seq<System>, events: seq<Event>, i: nat): Payload
    requires |states| == |events| + 1 && i <= |events|
  {
    if i == 0 then []
    else if AnsweredAt(port, states, events, i - 1, false) then events[i - 1].m.data
    else LastRefusal(port, states, events, i - 1)
  }

  /** A refusal of an outstanding request came after the last acknowledgement of one. */
  ghost predicate RefusedSince(port: Port, states: seq<System>, events: seq<Event>, i: nat)
    requires |states| == |events| + 1 && i <= |events|
  {
    exists j :: 0 <= j < i && AnsweredAt(port, states, events, j, false) && NoSuccess(port, states, events, j, i)
  }

  ghost predicate NoSuccess(port: Port, states: seq<System>, events: seq<Event>, j: nat, i: nat)
    requires |states| == |events| + 1 && j <= i <= |events|
  {
    forall k :: j <= k < i ==> !AnsweredAt(port, states, events, k, true)
  }

  /** Refusals carry no data. */
  ghost predicate PlainRefusals(port: Port, events: seq<Event>) {
    forall i :: 0 <= i < |events| && events[i].Arrive? ==>
      var r := ReplyIn(port, events[i].m);
      r.Some? && r.value.kind.Nack? ==> r.value.data == []
  }

  /** A node that runs this code refuses telemetry without data and grants it with eight bytes. */
  lemma NodesRefusePlainly(me: Address, st: Endpoint, m: Message, answers: Answers, x: nat)
    requires x < |Dispatch(me, st, m, answers).replies|
    ensures var q := Dispatch(me, st, m, answers).replies[x];
            q.body.Tm? ==> |q.data| == (if q.body.kind.Nack? then 0 else 8)
  {
  }

  lemma RefusedStep(port: Port, states: seq<System>, events: seq<Event>, i: nat)
    requires IsRun(port, states, events) && 0 < i <= |events|
    ensures RefusedSince(port, states, events, i)
       <==> !AnsweredAt(port, states, events, i - 1, true)
            && (AnsweredAt(port, states, events, i - 1, false) || RefusedSince(port, states, events, i - 1))
  {
    if RefusedSince(port, states, events, i - 1) && !AnsweredAt(port, states, events, i - 1, true) {
      var j :| 0 <= j < i - 1 && AnsweredAt(port, states, events, j, false)
          && NoSuccess(port, states, events, j, i - 1);
      assert NoSuccess(port, states, events, j, i);
    }
    if AnsweredAt(port, states, events, i - 1, false) {
      assert NoSuccess(port, states, events, i - 1, i);
    }
    if RefusedSince(port, states, events, i) {
      var j :| 0 <= j < i && AnsweredAt(port, states, events, j, false) && NoSuccess(port, states, events, j, i);
      assert !AnsweredAt(port, states, events, i - 1, true);
      if j < i - 1 {
        assert NoSuccess(port, states, events, j, i - 1);
      }
    }
  }

  lemma {:induction false} CacheHolds(port: Port, states: seq<System>, events: seq<Event>, i: nat)
    requires IsRun(port, states, events) && i <= |events|
    ensures states[i].cache == if RefusedSince(port, states, events, i)
                               then LastRefusal(port, states, events, i) else LastSuccess(port, states, events, i)
  {
    if i > 0 {
      CacheHolds(port, states, events, i - 1);
      RefusedStep(port, states, events, i);
      assert Steps(port, states, events, i - 1);
    }
  }

  /**
   * In every history the cache shows the last successful response if and only if no refusal of an outstanding
   * request came after it, or the last refusal carried the same bytes.
   */
  lemma CacheIsLastSuccess(port: Port, states: seq<System>, events: seq<Event>, i: nat)
    requires IsRun(port, states, events) && i <= |events|
    ensures Shown(states[i].cache) == Shown(LastSuccess(port, states, events, i))
       <==> !RefusedSince(port, states, events, i)
            || LastRefusal(port, states, events, i) == LastSuccess(port, states, events, i)
  {
    CacheHolds(port, states, events, i);
  }

  lemma {:induction false} LastRefusalIsPlain(port: Port, states: seq<System>, events: seq<Event>, i: nat)
    requires |states| == |events| + 1 && i <= |events| && PlainRefusals(port, events)
    ensures LastRefusal(port, states, events, i) == []
  {
    if i > 0 {
      LastRefusalIsPlain(port, states, events, i - 1);
    }
  }

  /**
   * Where refusals carry no data, as those of this code do, a refusal after the last success leaves nothing to
   * show.
   */
  lemma PlainRefusalEmpties(port: Port, states: seq<System>, events: seq<Event>, i: nat)
    requires IsRun(port, states, events) && i <= |events| && PlainRefusals(port, events)
    ensures RefusedSince(port, states, events, i) ==> Shown(states[i].cache) == None
  {
    CacheHolds(port, states, events, i);
    LastRefusalIsPlain(port, states, events, i);
  }

  // ---------- A refusal wipes the cache ----------

  const ME := Address(1)
  const PEER := Address(2)
  const PORT := Port(ME, TelemetryLine)

  function Answer(kind: ReqAck, data: Payload): Message {
    Message(ME, PEER, Tm(kind, 3), data)
  }

  function Round(kind: ReqAck, data: Payload): seq<Event> {
    [Call(0, PEER, 3), Send(0, true), Arrive(Answer(kind, data)), Wake(0)]
  }

  predicate Free(s: System) {
    !s.slot.waiting && 0 in s.callers && (s.callers[0].Idle? || s.callers[0].Finished?)
  }

  /** The states that one answered request leads through. */
  function Through(s: System, kind: ReqAck, data: Payload): seq<System>
    requires Free(s)
  {
    var s1 := Apply(PORT, s, Call(0, PEER, 3));
    var s2 := Apply(PORT, s1, Send(0, true));
    var s3 := Apply(PORT, s2, Arrive(Answer(kind, data)));
    [s, s1, s2, s3, Apply(PORT, s3, Wake(0))]
  }

  lemma RoundFacts(s: System, kind: ReqAck, data: Payload)
    requires Free(s) && (kind.Ack? || kind.Nack?)
    ensures var t, e := Through(s, kind, data), Round(kind, data);
            && (forall i :: 0 <= i < 4 ==> Enabled(t[i], e[i]) && t[i + 1] == Apply(PORT, t[i], e[i]))
            && Free(t[4]) && Hits(PORT, t[2].slot, e[2].m)
  {
  }

  lemma {:induction false} LastSuccessIs(port: Port, states: seq<System>, events: seq<Event>, j: nat, i: nat)
    requires |states| == |events| + 1 && j < i <= |events|
    requires AnsweredAt(port, states, events, j, true) && NoSuccess(port, states, events, j + 1, i)
    ensures LastSuccess(port, states, events, i) == events[j].m.data
  {
    if j < i - 1 {
      assert NoSuccess(port, states, events, j + 1, i - 1);
      LastSuccessIs(port, states, events, j, i - 1);
    }
  }

  /** A granted request and then a refused one. */
  lemma TwoRounds() returns (states: seq<System>, events: seq<Event>)
    ensures IsRun(PORT, states, events) && PlainRefusals(PORT, events) && |events| == 8
    ensures AnsweredAt(PORT, states, events, 2, true) && events[2].m.data == [9]
    ensures AnsweredAt(PORT, states, events, 6, false)
    ensures forall i :: 2 < i < 8 ==> !AnsweredAt(PORT, states, events, i, true)
  {
    var start := Alone(FREE, []);
    var first := Through(start, ReqAck.Ack, [9]);
    RoundFacts(start, ReqAck.Ack, [9]);
    var second := Through(first[4], ReqAck.Nack, []);
    RoundFacts(first[4], ReqAck.Nack, []);
    states, events := first[..4] + second, Round(ReqAck.Ack, [9]) + Round(ReqAck.Nack, []);
    forall i | 0 <= i < 8
      ensures Steps(PORT, states, events, i)
    {
      if i < 4 {
        assert states[i] == first[i] && states[i + 1] == first[i + 1] && events[i] == Round(ReqAck.Ack, [9])[i];
      } else {
        assert states[i] == second[i - 4] && states[i + 1] == second[i - 3]
            && events[i] == Round(ReqAck.Nack, [])[i - 4];
      }
    }
    assert states[2] == first[2] && states[6] == second[2];
  }

  /** After the refusal the response that was there is gone. */
  lemma RefusalWipesCache()
    ensures exists port, states: seq<System>, events ::
              && IsRun(port, states, events) && PlainRefusals(port, events)
              && Shown(LastSuccess(port, states, events, |events|)).Some? && Shown(states[|events|].cache) == None
  {
    var states, events := TwoRounds();
    assert NoSuccess(PORT, states, events, 3, 8) && NoSuccess(PORT, states, events, 6, 8);
    LastSuccessIs(PORT, states, events, 2, 8);
    assert RefusedSince(PORT, states, events, 8);
    PlainRefusalEmpties(PORT, states, events, 8);
  }
}
