/**
 A network of nodes joined by channels, on top of the scheduler machine: the theorem that a network
 at rest has nothing left to read.

 A push is two steps, the write into the ring and the signal to the consumer, and anything may happen
 between them. A writer may also write several packets and signal once: all but one of the writes are
 then covered by a signal that is still owed (`WriteOwed`). A component reads its inports one packet at a
 time while it runs, and finds a channel empty at some moment of a call; the contract for `NoWork` is only
 about such moments.
 */
module Network {
  import opened Prelude
  import opened ComponentApi
  import opened SchedulerModel
  import opened Machine
  import opened Lifecycle
  import Ring

  type Channel = nat

  /**
   Which node reads each channel, how many packets a channel holds, and for which channels the reader
   keeps the contract: it returns NoWork only after it found the channel empty during that call.
   */
  datatype Topology = Topology(reader: map<Channel, NodeId>, capacity: nat, drained: set<Channel>)

  datatype Net<C, P> = Net(
    machine: Machine<C>,
    inbox: map<Channel, seq<P>>,
    unsignalled: multiset<NodeId>,
    foundEmpty: set<Channel>)

  datatype NetLabel<C, P> =
    | Sched(act: Label<C>)
    | Write(channel: Channel, packet: P)
    | WriteOwed(channel: Channel, packet: P)
    | Notify(node: NodeId)
    | Take(channel: Channel)
    | FindEmpty(channel: Channel)

  /** The node whose `process` call is under way, and its channels. */
  ghost predicate InCall<C, P>(net: Net<C, P>, n: NodeId) {
    net.machine.pc.Running? && net.machine.pc.job.phase.Looping? && net.machine.pc.job.node == n
  }

  ghost predicate KeepsContract<C, P>(top: Topology, net: Net<C, P>, l: Label<C>) {
    l.Call? && net.machine.pc.Running? && l.reply.result.NoWork? ==>
      forall c :: c in top.drained && c in top.reader && top.reader[c] == net.machine.pc.job.node ==>
        c in net.foundEmpty
  }

  ghost predicate NetLegal<C, P>(top: Topology, net: Net<C, P>, l: NetLabel<C, P>) {
    match l
    case Sched(x) => Legal(net.machine, x) && KeepsContract(top, net, x)
    case Write(c, _) => c in top.reader && c in net.inbox && |net.inbox[c]| < top.capacity
    case WriteOwed(c, _) =>
      && c in top.reader && c in net.inbox && |net.inbox[c]| < top.capacity
      && top.reader[c] in net.unsignalled
    case Notify(n) => n in net.unsignalled && Legal(net.machine, Signal(n))
    case Take(c) => c in top.reader && c in net.inbox && InCall(net, top.reader[c]) && net.inbox[c] != []
    case FindEmpty(c) => c in top.reader && c in net.inbox && InCall(net, top.reader[c]) && net.inbox[c] == []
  }

  ghost function NetNext<C, P>(top: Topology, net: Net<C, P>, l: NetLabel<C, P>): Net<C, P>
    requires NetLegal(top, net, l)
  {
    match l
    case Sched(x) =>
      net.(machine := Next(net.machine, x), foundEmpty := if x.Begin? || x.Call? then {} else net.foundEmpty)
    case Write(c, p) =>
      net.(inbox := net.inbox[c := net.inbox[c] + [p]], unsignalled := net.unsignalled + multiset{top.reader[c]})
    case WriteOwed(c, p) => net.(inbox := net.inbox[c := net.inbox[c] + [p]])
    case Notify(n) =>
      net.(machine := Next(net.machine, Signal(n)), unsignalled := net.unsignalled - multiset{n})
    case Take(c) => net.(inbox := net.inbox[c := net.inbox[c][1..]])
    case FindEmpty(c) => net.(foundEmpty := net.foundEmpty + {c})
  }

  ghost predicate NetRun<C, P>(top: Topology, net: Net<C, P>, ls: seq<NetLabel<C, P>>)
    decreases |ls|
  {
    ls == [] || (NetLegal(top, net, ls[0]) && NetRun(top, NetNext(top, net, ls[0]), ls[1..]))
  }

  ghost function NetAfter<C, P>(top: Topology, net: Net<C, P>, ls: seq<NetLabel<C, P>>): Net<C, P>
    requires NetRun(top, net, ls)
    decreases |ls|
  {
    if ls == [] then net else NetAfter(top, NetNext(top, net, ls[0]), ls[1..])
  }

  /** Why node n will come back to channel c: it is queued, or a signal is on its
      way, or its running dispatch will requeue it or look again. */
  ghost predicate WillLook<C, P>(net: Net<C, P>, n: NodeId, c: Channel) {
    || n in net.machine.state.readyQueue
    || n in net.unsignalled
    || (net.machine.pc.Running? && net.machine.pc.job.node == n &&
          var e := net.machine.pc.job;
          e.outcome.didWork || e.outcome.finished || e.phase.Fetched? || (e.phase.Looping? && c !in net.foundEmpty))
  }

  ghost predicate NothingForgotten<C, P>(top: Topology, net: Net<C, P>) {
    forall c :: c in top.drained && c in top.reader && c in net.inbox ==>
      net.inbox[c] != [] && top.reader[c] in net.machine.state.readyFlags ==> WillLook(net, top.reader[c], c)
  }

  ghost predicate NetSound<C, P>(top: Topology, net: Net<C, P>) {
    Sound(net.machine) && NothingForgotten(top, net)
  }

  lemma SchedKeepsLook<C, P>(top: Topology, net: Net<C, P>, l: Label<C>, c: Channel)
    requires Sound(net.machine) && NetLegal(top, net, Sched(l))
    requires c in top.drained && c in top.reader
    requires WillLook(net, top.reader[c], c)
    requires top.reader[c] in Next(net.machine, l).state.readyFlags
    ensures WillLook(NetNext(top, net, Sched(l)), top.reader[c], c)
  {
    var n, m := top.reader[c], net.machine;
    var t := Next(m, l);
    if n in m.state.readyQueue {
      QueuedStays(m, l, n);
      if n !in t.state.readyQueue { StepOutOfQueue(m, l, n); }
    } else if l.Pop? {
      PopKeepsStructure(m.state);
    }
  }

  /** A registered node leaves the queue only by being dispatched. */
  lemma StepOutOfQueue<C>(m: Machine<C>, l: Label<C>, n: NodeId)
    requires Sound(m) && Legal(m, l) && n in m.state.readyQueue && n !in Next(m, l).state.readyQueue
    requires n in Next(m, l).state.readyFlags
    ensures l.Pop? && Next(m, l).pc.Running? && Next(m, l).pc.job.node == n && Next(m, l).pc.job.phase.Fetched?
  {
    QueuedStays(m, l, n);
    if l.Pop? { PopKeepsStructure(m.state); }
    if l.Settle? { WithoutNoDup(m.state.readyQueue, m.pc.job.node); }
  }

  lemma NetStepSound<C, P>(top: Topology, net: Net<C, P>, l: NetLabel<C, P>)
    requires NetSound(top, net) && NetLegal(top, net, l)
    ensures NetSound(top, NetNext(top, net, l))
  {
    var u := NetNext(top, net, l);
    match l
    case Sched(x) =>
      StepKeepsSound(net.machine, x);
      NewEventsLive(net.machine, x);
      forall c | c in top.drained && c in top.reader && c in u.inbox && u.inbox[c] != []
        && top.reader[c] in u.machine.state.readyFlags ensures WillLook(u, top.reader[c], c)
      {
        SchedKeepsLook(top, net, x, c);
      }
    case Notify(n) =>
      StepKeepsSound(net.machine, Signal(n));
      forall c | c in top.drained && c in top.reader && c in u.inbox && u.inbox[c] != []
        && top.reader[c] in u.machine.state.readyFlags ensures WillLook(u, top.reader[c], c)
      {
        var r := top.reader[c];
        assert WillLook(net, r, c);
        if r in net.machine.state.readyQueue { QueuedStays(net.machine, Signal(n), r); }
      }
    case _ =>
  }

  lemma {:induction false} NetRunSound<C, P>(top: Topology, net: Net<C, P>, ls: seq<NetLabel<C, P>>)
    requires NetSound(top, net) && NetRun(top, net, ls)
    ensures NetSound(top, NetAfter(top, net, ls))
    decreases |ls|
  {
    if ls != [] {
      NetStepSound(top, net, ls[0]);
      NetRunSound(top, NetNext(top, net, ls[0]), ls[1..]);
    }
  }

  /** The initial signalling: `signal_ready` for every id, in whatever order the map lists them. */
  function SignalAll<C>(s: State<C>, ids: seq<NodeId>): State<C>
    decreases |ids|
  {
    if ids == [] then s else SignalAll(SignalReady(s, ids[0]), ids[1..])
  }

  lemma SignalAllQueues<C>(s: State<C>, ids: seq<NodeId>)
    requires Structure(s, {})
    ensures Structure(SignalAll(s, ids), {})
    ensures SignalAll(s, ids).readyFlags.Keys == s.readyFlags.Keys
    ensures forall n :: n in s.readyQueue || (n in ids && n in s.readyFlags) ==> n in SignalAll(s, ids).readyQueue
    decreases |ids|
  {
    if ids != [] {
      var t := SignalReady(s, ids[0]);
      assert Structure(t, {});
      assert s.readyFlags.Keys == t.readyFlags.Keys;
      SignalAllQueues(t, ids[1..]);
      forall n | n in s.readyQueue || (n in ids && n in s.readyFlags) ensures n in SignalAll(s, ids).readyQueue {
        if n in s.readyQueue || n == ids[0] { assert n in t.readyQueue; }
      }
    }
  }

  /**
   A freshly wired network: packets may be anywhere, preloaded or written while it was set up, and signals
   may be on their way; the signals sent before were lost, but every node has been signalled since.
   */
  ghost predicate Started<C, P>(net: Net<C, P>, registered: State<C>, ids: seq<NodeId>) {
    && Structure(registered, {}) && registered.timerLatest == map[]
    && (forall n :: n in registered.nodes <==> n in ids)
    && net.machine == Machine(SignalAll(registered, ids), Polling, true, [])
  }

  lemma StartedSound<C, P>(top: Topology, net: Net<C, P>, registered: State<C>, ids: seq<NodeId>)
    requires Started(net, registered, ids)
    ensures NetSound(top, net)
  {
    SignalAllQueues(registered, ids);
  }

  /**
   Quiescence: in a network whose components return NoWork only after finding their drained inports
   empty, whenever no component is running, no push is between its write and its signal, and the ready
   queue is empty, every drained inport of every unfinished node is empty.
   */
  lemma Quiescence<C, P>(top: Topology, net: Net<C, P>, registered: State<C>, ids: seq<NodeId>,
                         ls: seq<NetLabel<C, P>>, c: Channel)
    requires Started(net, registered, ids) && NetRun(top, net, ls)
    requires var u := NetAfter(top, net, ls);
      !u.machine.pc.Running? && u.unsignalled == multiset{} && u.machine.state.readyQueue == []
    requires c in top.drained && c in top.reader && c in NetAfter(top, net, ls).inbox
    requires top.reader[c] in NetAfter(top, net, ls).machine.state.nodes
    ensures NetAfter(top, net, ls).inbox[c] == []
  {
    StartedSound(top, net, registered, ids);
    NetRunSound(top, net, ls);
    var u := NetAfter(top, net, ls);
    assert top.reader[c] in u.machine.state.readyFlags;
    assert u.inbox[c] != [] ==> WillLook(u, top.reader[c], c);
  }

  // ----- the calls of a component that reads one channel -----

  function RingLabels<C, P>(ch: Channel, es: seq<Ring.RingEvent<P>>): seq<NetLabel<C, P>> {
    if es == [] then []
    else
      var l := match es[0]
        case Arrived(p) => Write(ch, p)
        case TookOne => NetLabel.Take(ch)
        case SawEmpty => FindEmpty(ch);
      [l] + RingLabels(ch, es[1..])
  }

  lemma {:induction false} NetRunConcat<C, P>(top: Topology, net: Net<C, P>, a: seq<NetLabel<C, P>>,
    b: seq<NetLabel<C, P>>)
    requires NetRun(top, net, a) && NetRun(top, NetAfter(top, net, a), b)
    ensures NetRun(top, net, a + b) && NetAfter(top, net, a + b) == NetAfter(top, NetAfter(top, net, a), b)
    decreases |a|
  {
    if a == [] {
      assert a + b == b;
    } else {
      assert (a + b)[1..] == a[1..] + b;
      NetRunConcat(top, NetNext(top, net, a[0]), a[1..], b);
    }
  }

  lemma NetRunOne<C, P>(top: Topology, net: Net<C, P>, l: NetLabel<C, P>)
    requires NetLegal(top, net, l)
    ensures NetRun(top, net, [l]) && NetAfter(top, net, [l]) == NetNext(top, net, l)
  {
    assert [l][1..] == [];
    assert NetAfter(top, NetNext(top, net, l), []) == NetNext(top, net, l);
  }

  /** What happens to the reader's ring during its call is a stretch of the network's run. */
  lemma {:induction false} RingIsRun<C, P>(top: Topology, net: Net<C, P>, ch: Channel, es: seq<Ring.RingEvent<P>>)
    requires ch in top.reader && ch in net.inbox && InCall(net, top.reader[ch])
    requires Ring.Legal(net.inbox[ch], es, top.capacity)
    ensures NetRun(top, net, RingLabels<C, P>(ch, es))
    ensures var t := NetAfter(top, net, RingLabels<C, P>(ch, es));
      && t.machine == net.machine
      && t.inbox == net.inbox[ch := Ring.After(net.inbox[ch], es, top.capacity)]
      && (Ring.SawEmpty in es || ch in net.foundEmpty ==> ch in t.foundEmpty)
    decreases |es|
  {
    if es != [] {
      var l := RingLabels<C, P>(ch, es)[0];
      var t := NetNext(top, net, l);
      assert RingLabels<C, P>(ch, es)[1..] == RingLabels(ch, es[1..]);
      assert t.inbox == net.inbox[ch := Ring.Step(net.inbox[ch], es[0])];
      RingIsRun(top, t, ch, es[1..]);
      assert es == [es[0]] + es[1..];
    } else {
      assert net.inbox == net.inbox[ch := net.inbox[ch]];
    }
  }

  /**
   A component that reads one drained channel, and returns NoWork only from calls in which it found
   the ring empty, keeps the contract of the theorem: each of its calls, arrivals in mid-call included,
   is a legal stretch of the network's run.
   */
  lemma CallKeepsContract<C, P>(top: Topology, net: Net<C, P>, ch: Channel, es: seq<Ring.RingEvent<P>>, reply: Reply<C>)
    requires ch in top.reader && ch in net.inbox && InCall(net, top.reader[ch])
    requires forall c :: c in top.drained && c in top.reader && top.reader[c] == top.reader[ch] ==> c == ch
    requires Ring.Legal(net.inbox[ch], es, top.capacity) && (reply.result.NoWork? ==> Ring.SawEmpty in es)
    ensures var ls := RingLabels<C, P>(ch, es) + [Sched(Call(reply))];
      && NetRun(top, net, ls)
      && NetAfter(top, net, ls).machine == Next(net.machine, Call(reply))
      && NetAfter(top, net, ls).inbox == net.inbox[ch := Ring.After(net.inbox[ch], es, top.capacity)]
  {
    RingIsRun(top, net, ch, es);
    var t := NetAfter(top, net, RingLabels<C, P>(ch, es));
    NetRunOne(top, t, Sched(Call(reply)));
    NetRunConcat(top, net, RingLabels<C, P>(ch, es), [Sched(Call(reply))]);
  }
}
