/** Any set of nodes falls silent: without further calls of the application interface, every run of deliveries ends. */
module Quiescence {
  import opened CanTypes
  import opened Codec
  import opened ProtocolSpec
  import SetSpec = SetBlockSpec
  import GetSpec = GetBlockSpec

  /** The nodes on a bus and the messages in flight. */
  datatype Bus = Bus(nodes: map<Address, Endpoint>, flight: seq<Message>)

  /** A node that takes a message off the bus, and its application's answers. */
  datatype Receipt = Receipt(node: Address, answers: Answers)

  /** Message i is taken off the bus by some nodes, each at most once; possibly by none. */
  datatype Event = Deliver(i: nat, receivers: seq<Receipt>)

  predicate Enabled(bus: Bus, e: Event) {
    && e.i < |bus.flight|
    && (forall x :: 0 <= x < |e.receivers| ==> e.receivers[x].node in bus.nodes)
    && (forall x, y :: 0 <= x < y < |e.receivers| ==> e.receivers[x].node != e.receivers[y].node)
  }

  /** The receivers handle the message one after the other. */
  function Handle(bus: Bus, m: Message, receivers: seq<Receipt>): Bus
    requires forall x :: 0 <= x < |receivers| ==> receivers[x].node in bus.nodes
    ensures Handle(bus, m, receivers).nodes.Keys == bus.nodes.Keys
  {
    if receivers == [] then bus
    else
      var rest := Handle(bus, m, receivers[..|receivers| - 1]);
      var last := receivers[|receivers| - 1];
      var o := Dispatch(last.node, rest.nodes[last.node], m, last.answers);
      Bus(rest.nodes[last.node := o.state], rest.flight + o.replies)
  }

  function Apply(bus: Bus, e: Event): Bus
    requires Enabled(bus, e)
  {
    Handle(Without(bus, e.i), bus.flight[e.i], e.receivers)
  }

  // ---------- The measure ----------

  /** How many replies one node may give to a message. */
  function Fanout(body: Body): nat {
    match body
    case Tc(kind, _) => if kind.Req? then 1 else 0
    case Tm(kind, _) => if kind.Req? then 1 else 0
    case SetBlock(msg) => if SetSpec.IsRequestKind(msg.kind) then 1 else 0
    case GetBlock(msg) => if msg.kind.Start? then 64 else if msg.kind.Request? then 1 else 0
    case _ => 0
  }

  /** One for the message itself, one for every reply that any of n nodes may give. */
  function Weight(n: nat, m: Message): nat {
    1 + n * Fanout(m.body)
  }

  function Total(n: nat, flight: seq<Message>): nat {
    if flight == [] then 0 else Total(n, flight[..|flight| - 1]) + Weight(n, flight[|flight| - 1])
  }

  lemma {:induction false} TotalAppend(n: nat, x: seq<Message>, y: seq<Message>)
    ensures Total(n, x + y) == Total(n, x) + Total(n, y)
  {
    if y == [] {
      assert x + y == x;
    } else {
      assert (x + y)[..|x + y| - 1] == x + y[..|y| - 1];
      TotalAppend(n, x, y[..|y| - 1]);
    }
  }

  lemma TotalWithout(n: nat, flight: seq<Message>, i: nat)
    requires i < |flight|
    ensures Total(n, flight) == Total(n, flight[..i] + flight[i + 1..]) + Weight(n, flight[i])
  {
    assert flight == flight[..i] + ([flight[i]] + flight[i + 1..]);
    TotalAppend(n, flight[..i], [flight[i]] + flight[i + 1..]);
    TotalAppend(n, [flight[i]], flight[i + 1..]);
    TotalAppend(n, flight[..i], flight[i + 1..]);
    assert [flight[i]][..0] == [];
  }

  /** Replies call for no replies, and there are no more of them than the fan-out allows. */
  lemma RepliesAreFinal(me: Address, st: Endpoint, m: Message, answers: Answers)
    ensures var replies := Dispatch(me, st, m, answers).replies;
            && |replies| <= Fanout(m.body)
            && forall x :: 0 <= x < |replies| ==> Fanout(replies[x].body) == 0
  {
    match m.body
    case SetBlock(msg) => SetSpec.ReactAnswersSender(me, st.setBlock, m.from, msg, m.data, answers.setBlock);
    case GetBlock(msg) => GetSpec.ReactAnswersSender(me, st.getBlock, m.from, msg, m.data, answers.getBlock);
    case _ =>
  }

  lemma {:induction false} FinalTotal(n: nat, replies: seq<Message>)
    requires forall x :: 0 <= x < |replies| ==> Fanout(replies[x].body) == 0
    ensures Total(n, replies) == |replies|
  {
    if replies != [] {
      FinalTotal(n, replies[..|replies| - 1]);
    }
  }

  lemma ReplyTotal(n: nat, flight: seq<Message>, me: Address, st: Endpoint, m: Message, answers: Answers)
    ensures Total(n, flight + Dispatch(me, st, m, answers).replies) <= Total(n, flight) + Fanout(m.body)
  {
    var replies := Dispatch(me, st, m, answers).replies;
    RepliesAreFinal(me, st, m, answers);
    FinalTotal(n, replies);
    TotalAppend(n, flight, replies);
  }

  lemma OneMore(k: nat, f: nat)
    ensures (k + 1) * f == k * f + f
  {
  }

  lemma {:induction false} HandleTotal(n: nat, bus: Bus, m: Message, receivers: seq<Receipt>, f: nat)
    requires f == Fanout(m.body)
    requires forall x :: 0 <= x < |receivers| ==> receivers[x].node in bus.nodes
    ensures Total(n, Handle(bus, m, receivers).flight) <= Total(n, bus.flight) + |receivers| * f
  {
    if receivers != [] {
      var before, last := receivers[..|receivers| - 1], receivers[|receivers| - 1];
      HandleTotal(n, bus, m, before, f);
      var rest := Handle(bus, m, before);
      ReplyTotal(n, rest.flight, last.node, rest.nodes[last.node], m, last.answers);
      OneMore(|before|, f);
    }
  }

  lemma {:induction false} DistinctReceivers(nodes: set<Address>, receivers: seq<Receipt>)
    requires forall x :: 0 <= x < |receivers| ==> receivers[x].node in nodes
    requires forall x, y :: 0 <= x < y < |receivers| ==> receivers[x].node != receivers[y].node
    ensures |receivers| <= |nodes|
  {
    if receivers != [] {
      var last := receivers[|receivers| - 1].node;
      DistinctReceivers(nodes - {last}, receivers[..|receivers| - 1]);
    }
  }

  lemma Scale(a: nat, b: nat, f: nat)
    requires a <= b
    ensures a * f <= b * f
  {
  }

  /** A message that is taken off the bus by r of n nodes leaves less than it weighed. */
  lemma LessThanItsWeight(n: nat, m: Message, r: nat)
    requires r <= n
    ensures r * Fanout(m.body) < Weight(n, m)
  {
    Scale(r, n, Fanout(m.body));
  }

  /** The bus without the message that is being delivered. */
  function Without(bus: Bus, i: nat): Bus
    requires i < |bus.flight|
  {
    bus.(flight := bus.flight[..i] + bus.flight[i + 1..])
  }

  /** Every delivery makes the total weight of the messages in flight smaller. */
  lemma DeliveryLosesWeight(bus: Bus, e: Event)
    requires Enabled(bus, e)
    ensures Apply(bus, e).nodes.Keys == bus.nodes.Keys
    ensures Total(|bus.nodes|, Apply(bus, e).flight) < Total(|bus.nodes|, bus.flight)
  {
    var n, m := |bus.nodes|, bus.flight[e.i];
    TotalWithout(n, bus.flight, e.i);
    HandleTotal(n, Without(bus, e.i), m, e.receivers, Fanout(m.body));
    DistinctReceivers(bus.nodes.Keys, e.receivers);
    assert |bus.nodes.Keys| == |bus.nodes|;
    LessThanItsWeight(n, m, |e.receivers|);
  }

  ghost predicate IsRun(states: seq<Bus>, events: seq<Event>) {
    && |states| == |events| + 1
    && forall i :: 0 <= i < |events| ==> Enabled(states[i], events[i]) && states[i + 1] == Apply(states[i], events[i])
  }

  /** Every run of deliveries is at most as long as the weight of what was in flight at its start. */
  lemma {:induction false} RunsEnd(states: seq<Bus>, events: seq<Event>, i: nat)
    requires IsRun(states, events) && i < |states|
    ensures |states[i].nodes| == |states[0].nodes|
    ensures i + Total(|states[0].nodes|, states[i].flight) <= Total(|states[0].nodes|, states[0].flight)
  {
    if i > 0 {
      RunsEnd(states, events, i - 1);
      DeliveryLosesWeight(states[i - 1], events[i - 1]);
      assert |states[i].nodes| == |states[i].nodes.Keys| == |states[i - 1].nodes.Keys| == |states[i - 1].nodes|;
    }
  }
}
