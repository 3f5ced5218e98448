/**
 From a graph to a running network: what registration, the preloaded channels and the initial
 signalling leave behind is a state from which the theorems about runs start.
 */
module Startup {
  import opened Prelude
  import opened ComponentApi
  import opened SchedulerModel
  import opened Machine
  import opened Lifecycle
  import opened Network
  import Fairness
  import Wiring

  /** While the graph is being set up, components may already signal: a hint for an unknown node is lost. */
  datatype Step<C> =
    | Register(node: NodeId, budgetClass: BudgetClass)
    | Install(node: NodeId, component: C)
    | Hint(node: NodeId)

  function Apply<C>(s: State<C>, step: Step<C>): State<C> {
    match step
    case Register(n, b) => AddNode(s, n, b)
    case Install(n, c) => AddComponent(s, n, c)
    case Hint(n) => SignalReady(s, n)
  }

  function Setup<C>(s: State<C>, steps: seq<Step<C>>): State<C>
    decreases |steps|
  {
    if steps == [] then s else Setup(Apply(s, steps[0]), steps[1..])
  }

  ghost predicate Queued(queue: seq<NodeId>, ready: set<NodeId>, depth: nat) {
    NoDup(queue) && (forall n :: n in queue <==> n in ready) && depth == |queue|
  }

  /** The structural invariant as far as it holds before every node has its component. */
  ghost predicate Registering<C>(s: State<C>) {
    && Queued(s.readyQueue, s.readySet, s.metrics.queueDepth)
    && s.readyFlags.Keys == s.nodes.Keys
    && (forall n :: n in s.readyFlags && s.readyFlags[n] ==> n in s.readySet)
    && s.readySet <= s.readyFlags.Keys
    && s.timerLatest == map[]
    && Fairness.ZeroCounters(s)
  }

  ghost predicate Registers<C>(steps: seq<Step<C>>, n: NodeId) {
    exists i :: 0 <= i < |steps| && steps[i].Register? && steps[i].node == n
  }

  ghost predicate Installs<C>(steps: seq<Step<C>>, n: NodeId) {
    exists i :: 0 <= i < |steps| && steps[i].Install? && steps[i].node == n
  }

  lemma QueuedMore(queue: seq<NodeId>, ready: set<NodeId>, n: NodeId)
    requires Queued(queue, ready, |queue|) && n !in ready
    ensures Queued(queue + [n], ready + {n}, |queue| + 1)
  {
    assert forall x :: x in queue + [n] <==> x in queue || x == n;
  }

  lemma HintRegistering<C>(s: State<C>, n: NodeId)
    requires Registering(s)
    ensures Registering(SignalReady(s, n))
  {
    if n in s.readyFlags && n !in s.readySet {
      QueuedMore(s.readyQueue, s.readySet, n);
    }
  }

  lemma ApplyRegistering<C>(s: State<C>, step: Step<C>)
    requires Registering(s)
    ensures Registering(Apply(s, step))
  {
    if step.Hint? {
      HintRegistering(s, step.node);
    }
  }

  lemma StepsSplit<C>(steps: seq<Step<C>>, n: NodeId)
    requires steps != []
    ensures Registers(steps, n) <==> (steps[0].Register? && steps[0].node == n) || Registers(steps[1..], n)
    ensures Installs(steps, n) <==> (steps[0].Install? && steps[0].node == n) || Installs(steps[1..], n)
  {
    assert forall i :: 0 <= i < |steps[1..]| ==> steps[i + 1] == steps[1..][i];
    assert forall i :: 1 <= i < |steps| ==> steps[i] == steps[1..][i - 1];
  }

  lemma {:induction false} SetupRegistering<C>(s: State<C>, steps: seq<Step<C>>)
    requires Registering(s)
    ensures Registering(Setup(s, steps))
    decreases |steps|
  {
    if steps != [] {
      ApplyRegistering(s, steps[0]);
      SetupRegistering(Apply(s, steps[0]), steps[1..]);
    }
  }

  lemma {:induction false} SetupNames<C>(s: State<C>, steps: seq<Step<C>>, n: NodeId)
    ensures n in Setup(s, steps).nodes <==> n in s.nodes || Registers(steps, n)
    ensures n in Setup(s, steps).components <==> n in s.components || Installs(steps, n)
    decreases |steps|
  {
    if steps != [] {
      StepsSplit(steps, n);
      SetupNames(Apply(s, steps[0]), steps[1..], n);
    }
  }

  /** Every name is given a node and a component, and no other name is. */
  ghost predicate SetsUp<C>(steps: seq<Step<C>>, names: set<NodeId>) {
    forall n :: (Registers(steps, n) <==> n in names) && (Installs(steps, n) <==> n in names)
  }

  /** Whatever the order of the set-up and the early signals, it ends in
      the structural invariant with all counters at zero. */
  lemma RegistrationStructured<C>(steps: seq<Step<C>>, names: set<NodeId>)
    requires SetsUp(steps, names)
    ensures var s := Setup(EmptyState<C>(), steps);
      Structure(s, {}) && s.nodes.Keys == names && s.timerLatest == map[] && Fairness.ZeroCounters(s)
  {
    SetupRegistering(EmptyState<C>(), steps);
    forall n
      ensures (n in Setup(EmptyState<C>(), steps).nodes <==> n in names)
        && (n in Setup(EmptyState<C>(), steps).components <==> n in names) {
      SetupNames(EmptyState<C>(), steps, n);
    }
  }

  lemma {:induction false} SetupLeaves<C>(s: State<C>, steps: seq<Step<C>>, n: NodeId)
    ensures !Registers(steps, n) && n in s.nodes ==>
      n in Setup(s, steps).nodes && Setup(s, steps).nodes[n] == s.nodes[n]
    ensures !Installs(steps, n) && n in s.components ==>
      n in Setup(s, steps).components && Setup(s, steps).components[n] == s.components[n]
    decreases |steps|
  {
    if steps != [] {
      StepsSplit(steps, n);
      SetupLeaves(Apply(s, steps[0]), steps[1..], n);
    }
  }

  lemma {:induction false} SetupSplit<C>(s: State<C>, a: seq<Step<C>>, b: seq<Step<C>>)
    ensures Setup(s, a + b) == Setup(Setup(s, a), b)
    decreases |a|
  {
    if a == [] {
      assert a + b == b;
    } else {
      assert (a + b)[1..] == a[1..] + b;
      SetupSplit(Apply(s, a[0]), a[1..], b);
    }
  }

  /**
   What a node starts with: the class it was registered with last, nothing counted, nothing requested, no
   stamp; and the component installed last.
   */
  lemma SetupGives<C>(steps: seq<Step<C>>, i: nat)
    requires i < |steps| && !steps[i].Hint?
    ensures var s := Setup(EmptyState<C>(), steps); var n := steps[i].node;
      && (steps[i].Register? && !Registers(steps[i + 1..], n) ==>
            n in s.nodes && s.nodes[n] == Context(steps[i].budgetClass, 0, 0, 0, None, None))
      && (steps[i].Install? && !Installs(steps[i + 1..], n) ==>
            n in s.components && s.components[n] == steps[i].component)
  {
    var before, rest := steps[..i], steps[i + 1..];
    assert steps == before + ([steps[i]] + rest);
    SetupSplit(EmptyState<C>(), before, [steps[i]] + rest);
    assert ([steps[i]] + rest)[1..] == rest;
    SetupLeaves(Apply(Setup(EmptyState<C>(), before), steps[i]), rest, steps[i].node);
  }

  // ----- the channels as a network -----

  /** A channel that can still be written wakes its reader, or carries packets out of the graph. */
  ghost predicate WellWoken(g: Wiring.Graph, p: Wiring.Plan) {
    && (p.waker.Some? ==> p.waker.value == p.consumer.process)
    && (p.waker.None? ==> p.producer.None? || p.consumer.process == Wiring.Boundary(g, Wiring.Outward))
  }

  ghost predicate AllWoken(g: Wiring.Graph, plans: seq<Wiring.Plan>) {
    forall k :: 0 <= k < |plans| ==> WellWoken(g, plans[k])
  }

  lemma EdgesWoken(g: Wiring.Graph, links: seq<Wiring.Edge>, n: nat)
    requires n <= |links|
    ensures AllWoken(g, Wiring.EdgePlans(g.edges, links, n))
  {
  }

  lemma LoneWoken(g: Wiring.Graph, key: Wiring.Endpoint, packets: seq<string>)
    ensures AllWoken(g, Wiring.LonePlans(key, packets))
  {
  }

  lemma LeftoversWoken(g: Wiring.Graph, keys: seq<Wiring.Endpoint>)
    ensures AllWoken(g, Wiring.LeftoverPlans(g.edges, keys))
  {
    if keys != [] {
      LeftoversWoken(g, keys[..|keys| - 1]);
      LoneWoken(g, keys[|keys| - 1], Wiring.IipsFor(g.edges, keys[|keys| - 1]));
    }
  }

  lemma PortsWoken(g: Wiring.Graph, way: Wiring.GraphPorts, names: seq<string>)
    requires forall x :: x in names ==> x in Wiring.PortsOf(g, way)
    ensures AllWoken(g, Wiring.PortPlans(g, way, names))
  {
    if names != [] {
      PortsWoken(g, way, names[..|names| - 1]);
    }
  }

  /** Each scheduled channel's waker names the node that reads it. */
  lemma WakersNameReaders(g: Wiring.Graph, walk: Wiring.Walk)
    requires Wiring.Walks(g, walk)
    ensures AllWoken(g, Wiring.GraphPlans(g, walk))
  {
    var links := Wiring.RealEdges(g.edges);
    EdgesWoken(g, links, |links|);
    LeftoversWoken(g, walk.keys);
    PortsWoken(g, Wiring.Inward, walk.ins);
    PortsWoken(g, Wiring.Outward, walk.outs);
  }

  /** Channel k of the plan, read by its consumer; the boundary's channels are read outside the scheduler. */
  ghost function TopologyOf(g: Wiring.Graph, plans: seq<Wiring.Plan>, drained: set<Channel>): Topology {
    Topology(map k: nat | k < |plans| && plans[k].consumer.process in g.nodes :: plans[k].consumer.process,
      PROCESSEDGE_BUFSIZE, drained)
  }

  /** What the channels hold: the packets preloaded, then what was written from outside during the set-up. */
  ghost predicate Filled(plans: seq<Wiring.Plan>, inbox: map<Channel, seq<string>>) {
    && (forall k: nat :: k in inbox <==> k < |plans|)
    && forall k :: k in inbox ==> plans[k].packets <= inbox[k]
  }

  /** The network as started: all nodes signalled in some order, and some signals of early writes still owed. */
  ghost function Launched<C>(inbox: map<Channel, seq<string>>, owed: multiset<NodeId>, registered: State<C>,
      ids: seq<NodeId>): Net<C, string> {
    Net(Machine(SignalAll(registered, ids), Polling, true, []), inbox, owed, {})
  }

  /** The network after a run from the start. */
  ghost predicate RunsTo<C>(g: Wiring.Graph, plans: seq<Wiring.Plan>, drained: set<Channel>, start: Net<C, string>,
      ls: seq<NetLabel<C, string>>, u: Net<C, string>) {
    NetRun(TopologyOf(g, plans, drained), start, ls) && NetAfter(TopologyOf(g, plans, drained), start, ls) == u
  }

  /**
   Quiescence of a constructed graph, from the description to any run: channels as `Construct` plans
   them, any set-up order, any writes from outside meanwhile, any order of the initial signals, then any
   run. At rest, every channel whose reader keeps the NoWork contract and has not finished is empty, the
   packets preloaded and written early included.
   */
  lemma LaunchedQuiescence<C>(g: Wiring.Graph, walk: Wiring.Walk, steps: seq<Step<C>>, ids: seq<NodeId>,
      inbox: map<Channel, seq<string>>, owed: multiset<NodeId>, drained: set<Channel>,
      ls: seq<NetLabel<C, string>>, u: Net<C, string>, c: Channel)
    requires Wiring.Walks(g, walk) && SetsUp(steps, g.nodes.Keys) && (forall n :: n in ids <==> n in g.nodes)
    requires Filled(Wiring.GraphPlans(g, walk), inbox)
    requires RunsTo(g, Wiring.GraphPlans(g, walk), drained,
                    Launched(inbox, owed, Setup(EmptyState<C>(), steps), ids), ls, u)
    requires !u.machine.pc.Running? && u.unsignalled == multiset{} && u.machine.state.readyQueue == []
    requires c in drained && c < |Wiring.GraphPlans(g, walk)|
    requires Wiring.GraphPlans(g, walk)[c].consumer.process in u.machine.state.nodes
    ensures c in u.inbox && u.inbox[c] == []
  {
    var plans := Wiring.GraphPlans(g, walk);
    var top, registered := TopologyOf(g, plans, drained), Setup(EmptyState<C>(), steps);
    var net := Launched(inbox, owed, registered, ids);
    RegistrationStructured(steps, g.nodes.Keys);
    assert Started(net, registered, ids);
    ChannelsStay(top, net, ls);
    NodesShrink(top, net, ls);
    SignalAllCounters(registered, ids);
    Quiescence(top, net, registered, ids, ls, c);
  }

  /** The theorems about runs all start here: every node queued, nothing armed, all counters at zero. */
  lemma LaunchedInitial<C>(inbox: map<Channel, seq<string>>, owed: multiset<NodeId>, steps: seq<Step<C>>,
      names: set<NodeId>, ids: seq<NodeId>)
    requires SetsUp(steps, names) && (forall n :: n in ids <==> n in names)
    ensures var m := Launched(inbox, owed, Setup(EmptyState<C>(), steps), ids).machine;
      Initial(m) && FlagsServed(m) && Fairness.ZeroCounters(m.state) &&
      forall n :: n in m.state.readyQueue <==> n in names
  {
    var s := Setup(EmptyState<C>(), steps);
    RegistrationStructured(steps, names);
    SignalAllQueues(s, ids);
    SignalAllCounters(s, ids);
  }

  lemma SignalAllCounters<C>(s: State<C>, ids: seq<NodeId>)
    requires Fairness.ZeroCounters(s)
    ensures Fairness.ZeroCounters(SignalAll(s, ids)) && SignalAll(s, ids).nodes == s.nodes
      && SignalAll(s, ids).timerLatest == s.timerLatest
    decreases |ids|
  {
    if ids != [] { SignalAllCounters(SignalReady(s, ids[0]), ids[1..]); }
  }

  lemma ChannelsStay<C, P>(top: Topology, net: Net<C, P>, ls: seq<NetLabel<C, P>>)
    requires NetRun(top, net, ls)
    ensures NetAfter(top, net, ls).inbox.Keys == net.inbox.Keys
    decreases |ls|
  {
    if ls != [] { ChannelsStay(top, NetNext(top, net, ls[0]), ls[1..]); }
  }

  /** Names known to the machine. */
  ghost function Known<C>(m: Machine<C>): set<NodeId> {
    m.state.nodes.Keys + CheckedOut(m.pc)
  }

  lemma StepKnows<C>(m: Machine<C>, l: Label<C>)
    requires Legal(m, l)
    ensures Known(Next(m, l)) <= Known(m)
  {
    if l.Settle? {
      SettledShape(m.state, m.pc.job.node, m.pc.job.component, m.pc.job.context, m.pc.job.outcome);
    }
  }

  /** No run makes a node that was not registered. */
  lemma NodesShrink<C, P>(top: Topology, net: Net<C, P>, ls: seq<NetLabel<C, P>>)
    requires NetRun(top, net, ls)
    ensures Known(NetAfter(top, net, ls).machine) <= Known(net.machine)
    decreases |ls|
  {
    if ls != [] {
      if ls[0].Sched? { StepKnows(net.machine, ls[0].act); }
      NodesShrink(top, NetNext(top, net, ls[0]), ls[1..]);
    }
  }
}
