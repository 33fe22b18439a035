/** For which applications, and on which buses, a read from a quiet channel can be trusted. */
module GetBlockResponses {
  import opened CanTypes
  import opened Codec
  import opened Blocks
  import opened Sequences
  import opened GetBlockSpec
  import opened GetBlockNetwork
  import opened GetBlockStale

  /**
   * Every read from a quiet channel that returns true is honest, if the application at b gives responses
   * from R only and the bus repeats requests only if it may.
   */
  ghost predicate SafeWith(R: iset<seq<Byte>>, repeats: bool) {
    forall t, states, events ::
      IsRun(t, states, events) && Initial(t, states[0], {}) && Last(states).pc == Returned(true)
      && OnlyServes(t, Last(states).served, R) && (repeats || NeverRepeats(t, events))
      ==> Honest(t, Last(states))
  }

  ghost predicate NeverRepeats(t: Read, events: seq<Event>) {
    forall j :: 0 <= j < |events| ==> !KeepsRequest(t, events[j])
  }

  predicate Full(response: seq<Byte>) {
    |response| == 8 * READ_BLOCKS
  }

  predicate Differ(r: seq<Byte>, s: seq<Byte>, i: nat)
    requires Full(r) && Full(s) && i < READ_BLOCKS
  {
    r[8 * i..8 * i + 8] != s[8 * i..8 * i + 8]
  }

  /** Any two full responses differ in at most one block. */
  ghost predicate OneBlockApart(R: iset<seq<Byte>>) {
    forall r, s, i: nat, j: nat | r in R && s in R && Full(r) && Full(s) && i < j < READ_BLOCKS ::
      !(Differ(r, s, i) && Differ(r, s, j))
  }

  // ---------- One block apart is enough ----------

  ghost predicate AllFull(R: iset<seq<Byte>>) {
    forall r :: r in R ==> Full(r)
  }

  /** The response that block i of the data comes from. */
  lemma Source(data: seq<Byte>, R: iset<seq<Byte>>, i: nat) returns (r: seq<Byte>)
    requires Pieced(data, R) && AllFull(R) && i < READ_BLOCKS
    ensures r in R && Full(r) && Full(data) && !Differ(r, data, i)
  {
    assert Known(R, i, data[8 * i..8 * i + 8]);
    r :| r in R && IsBlock(r, i, data[8 * i..8 * i + 8]);
  }

  lemma AtMostOne(R: iset<seq<Byte>>, r: seq<Byte>, s: seq<Byte>, i: nat, j: nat)
    requires OneBlockApart(R) && r in R && s in R && Full(r) && Full(s) && i < READ_BLOCKS && j < READ_BLOCKS && i != j
    ensures !(Differ(r, s, i) && Differ(r, s, j))
  {
    if i < j {
      assert !(Differ(r, s, i) && Differ(r, s, j));
    } else {
      assert !(Differ(r, s, j) && Differ(r, s, i));
    }
  }

  /** Data that agrees with one response in block i, where that one differs from another, agrees with it everywhere. */
  lemma Settled(data: seq<Byte>, R: iset<seq<Byte>>, r: seq<Byte>, s: seq<Byte>, i: nat, k: nat)
    requires Pieced(data, R) && AllFull(R) && OneBlockApart(R) && r in R && s in R
    requires i < READ_BLOCKS && k < READ_BLOCKS && Full(data)
    requires Differ(r, data, i) && !Differ(s, data, i)
    ensures !Differ(s, data, k)
  {
    if k != i && Differ(s, data, k) {
      var u := Source(data, R, k);
      AtMostOne(R, r, s, i, k);
      AtMostOne(R, u, s, i, k);
      AtMostOne(R, u, r, i, k);
    }
  }

  /** Responses that are pairwise one block apart cannot be mixed into a new one. */
  lemma MixtureIsOne(data: seq<Byte>, R: iset<seq<Byte>>)
    requires Pieced(data, R) && AllFull(R) && OneBlockApart(R)
    ensures data in R
  {
    var r := Source(data, R, 0);
    if i: nat :| i < READ_BLOCKS && Differ(r, data, i) {
      var s := Source(data, R, i);
      forall k: nat | k < READ_BLOCKS
        ensures data[8 * k..8 * k + 8] == s[8 * k..8 * k + 8]
      {
        Settled(data, R, r, s, i, k);
      }
      SameSlices(data, s, READ_BLOCKS);
    } else {
      forall k: nat | k < READ_BLOCKS
        ensures data[8 * k..8 * k + 8] == r[8 * k..8 * k + 8]
      {
        assert !Differ(r, data, k);
      }
      SameSlices(data, r, READ_BLOCKS);
    }
  }

  /** A read is honest if the responses it was served are pairwise one block apart. */
  lemma HonestIfOneBlockApart(t: Read, states: seq<Net>, events: seq<Event>, R: iset<seq<Byte>>)
    requires IsRun(t, states, events) && Initial(t, states[0], {}) && Last(states).pc == Returned(true)
    requires OnlyServes(t, Last(states).served, R) && OneBlockApart(R)
    ensures Honest(t, Last(states))
  {
    var i := |states| - 1;
    var data, mine := states[i].initiator.lastData, ServedFor(t, states[i].served);
    assert Initial(t, states[0], HARMLESS);
    ReadIsPieced(t, states, events, i);
    FullAlong(t, states, events, i);
    assert AllFull(mine);
    assert OneBlockApart(mine) by {
      forall r, s, i: nat, j: nat | r in mine && s in mine && Full(r) && Full(s) && i < j < READ_BLOCKS
        ensures !(Differ(r, s, i) && Differ(r, s, j))
      {
        AtMostOne(R, r, s, i, j);
      }
    }
    MixtureIsOne(data, mine);
  }

  // ---------- Two blocks apart is too far ----------

  /** The blocks of r below j and those of s from j on. */
  function Mixture(r: seq<Byte>, s: seq<Byte>, j: nat): (m: seq<Byte>)
    requires Full(r) && Full(s) && j < READ_BLOCKS
    ensures Full(m)
  {
    r[..8 * j] + s[8 * j..]
  }

  lemma MixtureBlock(r: seq<Byte>, s: seq<Byte>, j: nat, k: nat)
    requires Full(r) && Full(s) && j < READ_BLOCKS && k < READ_BLOCKS
    ensures if k < j then !Differ(Mixture(r, s, j), r, k) else !Differ(Mixture(r, s, j), s, k)
  {
  }

  lemma MixtureInFlight(before: Net, now: Net, r: seq<Byte>, s: seq<Byte>, j: nat)
    requires Full(r) && Full(s) && j < READ_BLOCKS
    requires AllInFlight(before, r) && AllInFlight(now, s) && before.flight <= now.flight
    ensures AllInFlight(now, Mixture(r, s, j))
  {
    forall k: nat | k < 64
      ensures TransferOf(Mixture(r, s, j), k) in now.flight
    {
      MixtureBlock(r, s, j, k);
      if k < j {
        assert TransferOf(Mixture(r, s, j), k) == TransferOf(r, k);
        assert TransferOf(r, k) in before.flight;
      } else {
        assert TransferOf(Mixture(r, s, j), k) == TransferOf(s, k);
      }
    }
  }

  /** A read up to the point where all blocks of a first response are on the bus. */
  lemma FirstHalf(r: seq<Byte>) returns (story: Story, start: Net, now: Net)
    requires Full(r)
    ensures Told(Example(), story, start, now) && start == StartState(map[], [])
    ensures now.pc == AwaitTransfers && now.initiator == Node(map[], Nothing(), [])
    ensures RequestPacket(Address(1), Example().job) in now.flight
        && StartPacket(Address(1), Example().job) in now.flight
    ensures AllInFlight(now, r) && now.served == [Service(Address(1), r)]
  {
    start := StartState(map[], []);
    story, now := Opening(Story([start], []), start, start);
    var ack;
    story, now, ack := Granting(story, start, now, r);
    story, now := Starting(story, start, now, ack);
    story, now := Sending(story, start, now, r);
  }

  /** The bus repeats the request, and a second response is put on the bus. */
  lemma SecondHalf(
      story: Story, start: Net, before: Net, r: seq<Byte>, s: seq<Byte>, j: nat) returns (longer: Story, now: Net)
    requires Full(r) && Full(s) && j < READ_BLOCKS
    requires Told(Example(), story, start, before)
    requires before.pc == AwaitTransfers && before.initiator == Node(map[], Nothing(), [])
    requires RequestPacket(Address(1), Example().job) in before.flight
        && StartPacket(Address(1), Example().job) in before.flight
    requires AllInFlight(before, r)
    ensures Told(Example(), longer, start, now)
    ensures now.pc == AwaitTransfers && now.initiator == Node(map[], Nothing(), [])
    ensures AllInFlight(now, Mixture(r, s, j)) && now.served == before.served + [Service(Address(1), s)]
  {
    var ack;
    longer, now, ack := Granting(story, start, before, s);
    longer, now := Sending(longer, start, now, s);
    MixtureInFlight(before, now, r, s, j);
  }

  lemma MixtureIsNeither(r: seq<Byte>, s: seq<Byte>, i: nat, j: nat)
    requires Full(r) && Full(s) && i < j < READ_BLOCKS && Differ(r, s, i) && Differ(r, s, j)
    ensures Mixture(r, s, j) != r && Mixture(r, s, j) != s
  {
    MixtureBlock(r, s, j, i);
    MixtureBlock(r, s, j, j);
  }

  /**
   * From a quiet channel, if the bus repeats the request and the application answers the copies with
   * responses that differ in two blocks, a read can return true with a response that was never given.
   */
  lemma RepeatedRequestMixes(r: seq<Byte>, s: seq<Byte>, i: nat, j: nat)
    requires Full(r) && Full(s) && i < j < READ_BLOCKS && Differ(r, s, i) && Differ(r, s, j)
    ensures !SafeWith(iset{r, s}, true)
  {
    var story, start, now := FirstHalf(r);
    story, now := SecondHalf(story, start, now, r, s, j);
    story, now := Collect(story, start, now, Mixture(r, s, j));
    assert now.served == [Service(Address(1), r), Service(Address(1), s)];
    MixtureIsNeither(r, s, i, j);
    assert Initial(Example(), start, {});
    assert OnlyServes(Example(), now.served, iset{r, s}) && !Honest(Example(), now);
  }

  // ---------- The exact condition ----------

  lemma SafeIfOneBlockApart(R: iset<seq<Byte>>, repeats: bool)
    requires repeats ==> OneBlockApart(R)
    ensures SafeWith(R, repeats)
  {
    forall t, states, events |
      && IsRun(t, states, events) && Initial(t, states[0], {}) && Last(states).pc == Returned(true)
      && OnlyServes(t, Last(states).served, R) && (repeats || NeverRepeats(t, events))
      ensures Honest(t, Last(states))
    {
      if repeats {
        HonestIfOneBlockApart(t, states, events, R);
      } else {
        UnrepeatedReadIsSafe(t, states, events, |states| - 1);
      }
    }
  }

  lemma MoreResponsesAreLessSafe(few: iset<seq<Byte>>, many: iset<seq<Byte>>, repeats: bool)
    requires few <= many && SafeWith(many, repeats)
    ensures SafeWith(few, repeats)
  {
    forall t, states, events |
      && IsRun(t, states, events) && Initial(t, states[0], {}) && Last(states).pc == Returned(true)
      && OnlyServes(t, Last(states).served, few) && (repeats || NeverRepeats(t, events))
      ensures Honest(t, Last(states))
    {
      assert OnlyServes(t, Last(states).served, many);
    }
  }

  /**
   * Reads from a quiet channel are safe with an application that gives responses from R if and only if the
   * bus does not repeat requests or any two full responses in R differ in at most one block.
   */
  lemma SafeExactlyWith(R: iset<seq<Byte>>, repeats: bool)
    ensures SafeWith(R, repeats) <==> (repeats ==> OneBlockApart(R))
  {
    if repeats ==> OneBlockApart(R) {
      SafeIfOneBlockApart(R, repeats);
    } else if SafeWith(R, repeats) {
      var r, s, i: nat, j: nat :|
        r in R && s in R && Full(r) && Full(s) && i < j < READ_BLOCKS && Differ(r, s, i) && Differ(r, s, j);
      MoreResponsesAreLessSafe(iset{r, s}, R, repeats);
      RepeatedRequestMixes(r, s, i, j);
    }
  }
}
