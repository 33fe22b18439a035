/** A read as a run: moves of the calling thread with batches of inbound frames handled in between. */
module GetBlockRun {
  import opened CanTypes
  import opened Codec
  import opened Blocks
  import opened GetBlockSpec

  datatype Inbound = Inbound(from: Address, msg: GetMsg, data: Payload, answer: Answer)

  /** The frames handled just before one atomic section, and whether that section's frame is taken for sending. */
  datatype Slot = Slot(inbound: seq<Inbound>, sendOk: bool)

  type Schedule = nat -> Slot

  function ReactTo(me: Address, node: Node, m: Inbound): Reaction {
    React(me, node, m.from, m.msg, m.data, m.answer)
  }

  function Absorb(me: Address, node: Node, inbound: seq<Inbound>): Node {
    if inbound == [] then node
    else ReactTo(me, Absorb(me, node, inbound[..|inbound| - 1]), inbound[|inbound| - 1]).node
  }

  /** A read in progress: where it stands, its node, and the frames it has sent. */
  datatype Config = Config(pc: Pc, node: Node, sent: seq<Packet>)

  /** Inbound frames, then one atomic section. A finished read does nothing more. */
  function Section(me: Address, job: Job, c: Config, slot: Slot): Config {
    if c.pc.Returned? then c
    else
      var before := Absorb(me, c.node, slot.inbound);
      var m := Advance(me, job, c.pc, before.pending, slot.sendOk);
      Config(m.pc, before.(pending := m.pending), c.sent + m.sent)
  }

  /** The read after its first k sections. */
  function After(me: Address, job: Job, node: Node, sched: Schedule, k: nat): Config {
    if k == 0 then Config(Begin, node, []) else Section(me, job, After(me, job, node, sched, k - 1), sched(k - 1))
  }

  lemma {:induction false} ReturnedIsFinal(me: Address, job: Job, node: Node, sched: Schedule, k: nat, l: nat)
    requires k <= l && After(me, job, node, sched, k).pc.Returned?
    ensures After(me, job, node, sched, l) == After(me, job, node, sched, k)
  {
    if k < l {
      ReturnedIsFinal(me, job, node, sched, k, l - 1);
    }
  }
}
