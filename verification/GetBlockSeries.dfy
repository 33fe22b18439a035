/** What lastData is worth: over every series of reads by one node, with any frames handled during and between them. */
module GetBlockSeries {
  import opened CanTypes
  import opened Codec
  import opened Blocks
  import opened Sequences
  import opened GetBlockSpec
  import opened GetBlockRun
  import opened GetBlockOutcome

  /** A read, and the frames handled after it before the next one. */
  datatype Turn = Turn(job: Job, sched: Schedule, between: seq<Inbound>)

  function NodeAfter(me: Address, node: Node, turns: seq<Turn>): Node {
    if |turns| == 0 then node
    else
      var t := Last(turns);
      Absorb(me, After(me, t.job, NodeAfter(me, node, turns[..|turns| - 1]), t.sched, 5).node, t.between)
  }

  ghost predicate Good(t: Turn) {
    Succeeds(t.job, t.sched)
  }

  /** The read fails although all its blocks have arrived. */
  ghost predicate Spoils(t: Turn) {
    !Good(t) && Starts(t.job, t.sched) && HasAll(TransferBatch(t.sched), t.job.to)
  }

  function Collected(t: Turn): seq<Byte> {
    Flatten(BlocksFrom(TransferBatch(t.sched), t.job.to))
  }

  /** The data of the last read that returned true, or what was there first. */
  ghost function LastSuccess(turns: seq<Turn>, first: seq<Byte>): seq<Byte> {
    if |turns| == 0 then first
    else if Good(Last(turns)) then Collected(Last(turns)) else LastSuccess(turns[..|turns| - 1], first)
  }

  /** The data of the last read that failed with all blocks. */
  ghost function LastSpoil(turns: seq<Turn>): seq<Byte> {
    if |turns| == 0 then []
    else if Spoils(Last(turns)) then Collected(Last(turns)) else LastSpoil(turns[..|turns| - 1])
  }

  ghost predicate NoneGood(turns: seq<Turn>, j: nat) {
    forall k :: j <= k < |turns| ==> !Good(turns[k])
  }

  /** A read after the last successful one failed with all blocks. */
  ghost predicate SpoiledSince(turns: seq<Turn>) {
    exists j :: 0 <= j < |turns| && Spoils(turns[j]) && NoneGood(turns, j)
  }

  lemma SpoiledStep(turns: seq<Turn>)
    requires |turns| > 0
    ensures var less := turns[..|turns| - 1];
            SpoiledSince(turns) <==> !Good(Last(turns)) && (Spoils(Last(turns)) || SpoiledSince(less))
  {
    var less := turns[..|turns| - 1];
    if SpoiledSince(less) && !Good(Last(turns)) {
      var j :| 0 <= j < |less| && Spoils(less[j]) && NoneGood(less, j);
      forall k | j <= k < |turns|
        ensures !Good(turns[k])
      {
        assert k < |less| ==> less[k] == turns[k];
      }
      assert Spoils(turns[j]) && NoneGood(turns, j);
    }
    if Spoils(Last(turns)) {
      assert NoneGood(turns, |turns| - 1);
    }
    if SpoiledSince(turns) {
      var j :| 0 <= j < |turns| && Spoils(turns[j]) && NoneGood(turns, j);
      if j < |less| {
        assert Spoils(less[j]) && NoneGood(less, j);
      }
    }
  }

  lemma OneTurn(me: Address, node: Node, t: Turn)
    requires node.pending == CLEARED
    ensures var n := Absorb(me, After(me, t.job, node, t.sched, 5).node, t.between);
            && n.pending == CLEARED
            && n.lastData == if Good(t) || Spoils(t) then Collected(t) else node.lastData
  {
    ReadOutcome(me, t.job, node, t.sched);
    NotWaiting(me, After(me, t.job, node, t.sched, 5).node, t.between);
  }

  lemma {:induction false} SeriesHolds(me: Address, node: Node, turns: seq<Turn>)
    requires node.pending == CLEARED
    ensures var n := NodeAfter(me, node, turns);
            && n.pending == CLEARED
            && n.lastData == if SpoiledSince(turns) then LastSpoil(turns) else LastSuccess(turns, node.lastData)
  {
    if |turns| > 0 {
      var less := turns[..|turns| - 1];
      SeriesHolds(me, node, less);
      OneTurn(me, NodeAfter(me, node, less), Last(turns));
      SpoiledStep(turns);
    }
  }

  /**
   * After any series of reads lastData is the data of the last successful one, if and only if no later read
   * failed after collecting all blocks, or the last that did collected the same data.
   */
  lemma DataIsLastSuccess(me: Address, node: Node, turns: seq<Turn>)
    requires node.pending == CLEARED
    ensures NodeAfter(me, node, turns).lastData == LastSuccess(turns, node.lastData)
       <==> !SpoiledSince(turns) || LastSpoil(turns) == LastSuccess(turns, node.lastData)
  {
    SeriesHolds(me, node, turns);
  }
}
