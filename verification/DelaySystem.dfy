/**
 Delay under the scheduler: its queue survives only because the timer protocol works. Every call of
 the delay node is one of the calls `DelayComponent.Process` can make; every other step of the machine
 is free, except that nobody else arms the node's timer and the clock does not run backwards.
 */
module DelaySystem {
  import opened Prelude
  import opened ComponentApi
  import opened SchedulerModel
  import opened Machine
  import opened Delay
  import Network
  import Ring

  datatype Comp<P> = DelayNode(state: DelayState<P>) | OtherNode

  /** The machine, the clock, the packets waiting on CONF, the room on OUT, and Delay's histories. */
  datatype Sys<P> = Sys(machine: Machine<Comp<P>>, clock: Instant, conf: seq<Conf>, room: nat, taken: seq<Passage<P>>,
                        sent: seq<Passage<P>>)

  /**
   A step: of the machine, of whoever writes to CONF, of the consumer that makes room on OUT, or a call of
   Delay, which leaves `left` room on OUT, or panics on its CONF packet.
   */
  datatype Move<P> =
    | Sched(act: Label<Comp<P>>)
    | SendConf(packet: Conf)
    | MakeRoom(amount: nat)
    | DelayCall(effect: Effect<P>, times: seq<Passage<P>>, end: Instant, left: nat)
    | PanicCall

  ghost predicate RunsNode<P>(m: Machine<Comp<P>>, d: NodeId) {
    m.pc.Running? && m.pc.job.node == d
  }

  ghost predicate MoveLegal<P>(sys: Sys<P>, d: NodeId, x: Move<P>) {
    match x
    case Sched(l) =>
      && Legal(sys.machine, l)
      && (l.Call? ==> !RunsNode(sys.machine, d))
      && (l.Wake? ==> l.node != d)
      && (l.Drain? ==> sys.clock <= l.now)
    case SendConf(_) => true
    case MakeRoom(_) => true
    case DelayCall(f, times, end, left) =>
      && InDelayCall(sys, d)
      && var s := sys.machine.pc.job.component.state;
      && !ConfPanics(s, sys.conf) && DelayRead(s.delay, sys.conf, Some(f.delay))
      && Possible(s, sys.machine.pc.job.context, f, sys.clock, end)
      && Released(times, s.pending, f.released, sys.clock, end)
      && RoomSpent(sys.room, left, f)
    case PanicCall => InDelayCall(sys, d) && ConfPanics(sys.machine.pc.job.component.state, sys.conf)
  }

  predicate ConfPanics<P>(s: DelayState<P>, conf: seq<Conf>) {
    s.delay.None? && conf != [] && conf[0].NotText?
  }

  /** A call that finds the delay unset takes a packet off CONF. */
  function ConfLeft<P>(s: DelayState<P>, conf: seq<Conf>): seq<Conf> {
    if s.delay.None? && conf != [] then conf[1..] else conf
  }

  ghost predicate InDelayCall<P>(sys: Sys<P>, d: NodeId) {
    RunsNode(sys.machine, d) && sys.machine.pc.job.phase.Looping? && sys.machine.pc.job.component.DelayNode?
  }

  function DelayReply<P>(s: DelayState<P>, c: Context, f: Effect<P>): Reply<Comp<P>>
    requires f.released <= |s.pending|
  {
    Reply(DelayNode(AfterEffect(s, f)), if f.ending.StopSignal? then c else ContextAfter(s, c, f), ResultOf(f), false)
  }

  function PanicReply<P>(component: Comp<P>, c: Context): Reply<Comp<P>> {
    Reply(component, c, Panicked, false)
  }

  ghost function MoveNext<P>(sys: Sys<P>, d: NodeId, x: Move<P>): Sys<P>
    requires MoveLegal(sys, d, x)
  {
    match x
    case Sched(l) => sys.(machine := Next(sys.machine, l), clock := if l.Drain? then l.now else sys.clock)
    case SendConf(packet) => sys.(conf := sys.conf + [packet])
    case MakeRoom(amount) => sys.(room := sys.room + amount)
    case DelayCall(f, times, end, left) =>
      var job := sys.machine.pc.job;
      Sys(Next(sys.machine, Call(DelayReply(job.component.state, job.context, f))), end,
          ConfLeft(job.component.state, sys.conf), left, sys.taken + f.accepted, sys.sent + times)
    case PanicCall =>
      var job := sys.machine.pc.job;
      sys.(machine := Next(sys.machine, Call(PanicReply(job.component, job.context))),
           conf := ConfLeft(job.component.state, sys.conf))
  }

  ghost predicate Moves<P>(sys: Sys<P>, d: NodeId, xs: seq<Move<P>>)
    decreases |xs|
  {
    xs == [] || (MoveLegal(sys, d, xs[0]) && Moves(MoveNext(sys, d, xs[0]), d, xs[1..]))
  }

  ghost function MovedTo<P>(sys: Sys<P>, d: NodeId, xs: seq<Move<P>>): Sys<P>
    requires Moves(sys, d, xs)
    decreases |xs|
  {
    if xs == [] then sys else MovedTo(MoveNext(sys, d, xs[0]), d, xs[1..])
  }

  /** The component and the context of d, wherever they are. */
  ghost function NodeOf<P>(m: Machine<Comp<P>>, d: NodeId): Comp<P> {
    if RunsNode(m, d) then m.pc.job.component else if d in m.state.components then m.state.components[d] else OtherNode
  }

  ghost function ContextOf<P>(m: Machine<Comp<P>>, d: NodeId): Context {
    if RunsNode(m, d) then m.pc.job.context else if d in m.state.nodes then m.state.nodes[d] else NewContext(Normal)
  }

  // ----- the timer protocol -----

  /** Before the first call of a dispatch: the front packet's deadline
      is live, or it has fired and its stamp is there. */
  ghost predicate Waiting<P>(latest: map<NodeId, Instant>, d: NodeId, pending: seq<Delayed<P>>, c: Context) {
    && c.wakeAt == None
    && (if pending == [] then d !in latest && c.timerFiredAt == None
        else if d in latest then latest[d] == pending[0].readyTime && c.timerFiredAt == None
        else c.timerFiredAt == Some(pending[0].readyTime))
  }

  /** After a call: the request for the front packet's ready time is in the context. */
  ghost predicate Requested<P>(latest: map<NodeId, Instant>, d: NodeId, pending: seq<Delayed<P>>, c: Context) {
    && c.timerFiredAt == None
    && c.wakeAt == (if pending == [] then None else Some(pending[0].readyTime))
    && (d in latest ==> pending != [] && latest[d] == pending[0].readyTime)
  }

  ghost predicate TimerKept<P>(m: Machine<Comp<P>>, d: NodeId, clock: Instant, pending: seq<Delayed<P>>, c: Context) {
    var latest := m.state.timerLatest;
    && (c.timerFiredAt.Some? ==> c.timerFiredAt.value <= clock)
    && (if !RunsNode(m, d) then
          Waiting(latest, d, pending, c) && (c.timerFiredAt.Some? ==> d in m.state.readyQueue)
        else if m.pc.job.phase.Fetched? then
          Waiting(latest, d, pending, c) && m.pc.job.outcome == NO_OUTCOME
        else if m.pc.job.phase.Looping? then
          !m.pc.job.outcome.finished
          && (if m.pc.job.outcome.didWork then Requested(latest, d, pending, c) else Waiting(latest, d, pending, c))
        else
          m.pc.job.outcome.finished || Requested(latest, d, pending, c))
  }

  // ----- nothing lost, nothing early -----

  function DelayOr0<P>(s: DelayState<P>): nat {
    if s.delay.Some? then s.delay.value else 0
  }

  ghost predicate TakenInOrder<P>(taken: seq<Passage<P>>, clock: Instant) {
    && (forall i :: 0 <= i < |taken| ==> taken[i].at <= clock)
    && (forall i, j :: 0 <= i < j < |taken| ==> taken[i].at <= taken[j].at)
  }

  ghost predicate SentAfterDelay<P>(sent: seq<Passage<P>>, taken: seq<Passage<P>>, delay: nat) {
    && |sent| <= |taken|
    && forall i :: 0 <= i < |sent| ==> sent[i].data == taken[i].data && taken[i].at + delay <= sent[i].at
  }

  /** OUT then the queue are the packets taken from IN, in order; each ready
      time is arrival plus delay; nothing went out before that. */
  ghost predicate QueueKept<P>(sys: Sys<P>, s: DelayState<P>) {
    && (s.delay.None? ==> sys.taken == [])
    && TakenInOrder(sys.taken, sys.clock)
    && SentAfterDelay(sys.sent, sys.taken, DelayOr0(s))
    && s.pending == Stamps(sys.taken[|sys.sent|..], DelayOr0(s))
  }

  ghost predicate SysKept<P>(sys: Sys<P>, d: NodeId) {
    && Sound(sys.machine)
    && (d in sys.machine.state.readyFlags ==>
          && NodeOf(sys.machine, d).DelayNode?
          && var s := NodeOf(sys.machine, d).state;
          TimerKept(sys.machine, d, sys.clock, s.pending, ContextOf(sys.machine, d)) && QueueKept(sys, s))
  }

  /** Steps that are not calls of d leave its component alone. */
  lemma SettleKeepsNode<P>(m: Machine<Comp<P>>, d: NodeId)
    requires Sound(m) && Legal(m, Settle) && d in Next(m, Settle).state.readyFlags
    ensures d in m.state.readyFlags && NodeOf(Next(m, Settle), d) == NodeOf(m, d)
  {
    SettledShape(m.state, m.pc.job.node, m.pc.job.component, m.pc.job.context, m.pc.job.outcome);
    if m.pc.job.outcome.finished { RetiringGone(m); }
  }

  lemma SchedKeepsNode<P>(sys: Sys<P>, d: NodeId, l: Label<Comp<P>>)
    requires Sound(sys.machine) && MoveLegal(sys, d, Sched(l))
    requires d in Next(sys.machine, l).state.readyFlags
    ensures d in sys.machine.state.readyFlags
    ensures NodeOf(Next(sys.machine, l), d) == NodeOf(sys.machine, d)
  {
    var m := sys.machine;
    match l
    case Pop => PopKeepsStructure(m.state);
    case Settle => SettleKeepsNode(m, d);
    case _ =>
  }

  lemma DrainKeepsTimer<P>(m: Machine<Comp<P>>, d: NodeId, clock: Instant, now: Instant, pending: seq<Delayed<P>>)
    requires Sound(m) && m.pc.Polling? && d in m.state.nodes && clock <= now
    requires TimerKept(m, d, clock, pending, ContextOf(m, d))
    ensures TimerKept(Next(m, Drain(now)), d, now, pending, ContextOf(Next(m, Drain(now)), d))
  {
    NewNodesOfDue(m.state.timerLatest, now, m.state.readySet);
  }

  lemma PopKeepsTimer<P>(m: Machine<Comp<P>>, d: NodeId, clock: Instant, pending: seq<Delayed<P>>)
    requires Sound(m) && m.pc.Committed? && d in m.state.nodes
    requires TimerKept(m, d, clock, pending, ContextOf(m, d))
    ensures TimerKept(Next(m, Pop), d, clock, pending, ContextOf(Next(m, Pop), d))
  {
    PopKeepsStructure(m.state);
    if d in m.state.readyQueue && d != m.state.readyQueue[0] {
      var i :| 0 <= i < |m.state.readyQueue| && m.state.readyQueue[i] == d;
      assert m.state.readyQueue[1..][i - 1] == d;
    }
  }

  lemma SettleOwn<P>(m: Machine<Comp<P>>, d: NodeId, clock: Instant, pending: seq<Delayed<P>>)
    requires Sound(m) && Legal(m, Settle) && m.pc.job.node == d && !m.pc.job.outcome.finished
    requires TimerKept(m, d, clock, pending, ContextOf(m, d))
    ensures TimerKept(Next(m, Settle), d, clock, pending, ContextOf(Next(m, Settle), d))
  {
  }

  lemma RetireOther<P>(m: Machine<Comp<P>>, d: NodeId, clock: Instant, pending: seq<Delayed<P>>)
    requires Sound(m) && Legal(m, Settle) && m.pc.job.node != d && m.pc.job.outcome.finished
    requires TimerKept(m, d, clock, pending, ContextOf(m, d))
    ensures TimerKept(Next(m, Settle), d, clock, pending, ContextOf(Next(m, Settle), d))
  {
    WithoutNoDup(m.state.readyQueue, m.pc.job.node);
  }

  lemma PutBackOther<P>(m: Machine<Comp<P>>, d: NodeId, clock: Instant, pending: seq<Delayed<P>>)
    requires Sound(m) && Legal(m, Settle) && m.pc.job.node != d && !m.pc.job.outcome.finished
    requires TimerKept(m, d, clock, pending, ContextOf(m, d))
    ensures TimerKept(Next(m, Settle), d, clock, pending, ContextOf(Next(m, Settle), d))
  {
  }

  lemma SettleKeepsTimer<P>(m: Machine<Comp<P>>, d: NodeId, clock: Instant, pending: seq<Delayed<P>>)
    requires Sound(m) && Legal(m, Settle) && (m.pc.job.node == d ==> !m.pc.job.outcome.finished)
    requires TimerKept(m, d, clock, pending, ContextOf(m, d))
    ensures TimerKept(Next(m, Settle), d, clock, pending, ContextOf(Next(m, Settle), d))
  {
    if m.pc.job.node == d {
      SettleOwn(m, d, clock, pending);
    } else if m.pc.job.outcome.finished {
      RetireOther(m, d, clock, pending);
    } else {
      PutBackOther(m, d, clock, pending);
    }
  }

  lemma SignalKeepsTimer<P>(m: Machine<Comp<P>>, d: NodeId, n: NodeId, clock: Instant, pending: seq<Delayed<P>>)
    requires Sound(m) && Legal(m, Signal(n))
    requires TimerKept(m, d, clock, pending, ContextOf(m, d))
    ensures TimerKept(Next(m, Signal(n)), d, clock, pending, ContextOf(Next(m, Signal(n)), d))
  {
  }

  lemma OtherCallKeepsTimer<P>(m: Machine<Comp<P>>, d: NodeId, r: Reply<Comp<P>>, clock: Instant,
    pending: seq<Delayed<P>>)
    requires Sound(m) && Legal(m, Call(r)) && !RunsNode(m, d)
    requires TimerKept(m, d, clock, pending, ContextOf(m, d))
    ensures TimerKept(Next(m, Call(r)), d, clock, pending, ContextOf(Next(m, Call(r)), d))
  {
  }

  lemma BeginKeepsTimer<P>(m: Machine<Comp<P>>, d: NodeId, clock: Instant, pending: seq<Delayed<P>>)
    requires Sound(m) && Legal(m, Begin)
    requires TimerKept(m, d, clock, pending, ContextOf(m, d))
    ensures TimerKept(Next(m, Begin), d, clock, pending, ContextOf(Next(m, Begin), d))
  {
  }

  lemma OtherWakeKeepsTimer<P>(m: Machine<Comp<P>>, d: NodeId, n: NodeId, when: Instant, clock: Instant,
    pending: seq<Delayed<P>>)
    requires Sound(m) && Legal(m, Wake(n, when)) && n != d
    requires TimerKept(m, d, clock, pending, ContextOf(m, d))
    ensures TimerKept(Next(m, Wake(n, when)), d, clock, pending, ContextOf(Next(m, Wake(n, when)), d))
  {
  }

  lemma RetiringGone<C>(m: Machine<C>)
    requires Legal(m, Settle) && m.pc.job.outcome.finished
    ensures m.pc.job.node !in Next(m, Settle).state.readyFlags
  {
  }

  lemma SchedKeepsTimer<P>(sys: Sys<P>, d: NodeId, l: Label<Comp<P>>, pending: seq<Delayed<P>>)
    requires Sound(sys.machine) && MoveLegal(sys, d, Sched(l))
    requires d in Next(sys.machine, l).state.readyFlags && d in sys.machine.state.readyFlags
    requires TimerKept(sys.machine, d, sys.clock, pending, ContextOf(sys.machine, d))
    ensures var u := MoveNext(sys, d, Sched(l));
      TimerKept(u.machine, d, u.clock, pending, ContextOf(u.machine, d))
  {
    var m := sys.machine;
    match l
    case Drain(now) => DrainKeepsTimer(m, d, sys.clock, now, pending);
    case Pop => PopKeepsTimer(m, d, sys.clock, pending);
    case Settle =>
      if m.pc.job.outcome.finished { RetiringGone(m); }
      SettleKeepsTimer(m, d, sys.clock, pending);
    case Signal(n) => SignalKeepsTimer(m, d, n, sys.clock, pending);
    case Call(r) => OtherCallKeepsTimer(m, d, r, sys.clock, pending);
    case Begin => BeginKeepsTimer(m, d, sys.clock, pending);
    case Wake(n, when) => OtherWakeKeepsTimer(m, d, n, when, sys.clock, pending);
    case _ =>
  }

  /** One call of Delay: from either state of the protocol to the request for the new front packet. */
  lemma CallKeepsProtocol<P>(latest: map<NodeId, Instant>, d: NodeId, s: DelayState<P>, c: Context, f: Effect<P>,
    lo: Instant, hi: Instant)
    requires Waiting(latest, d, s.pending, c) || Requested(latest, d, s.pending, c)
    requires Possible(s, c, f, lo, hi) && f.ending.Paused?
    ensures Requested(latest, d, AfterEffect(s, f).pending, ContextAfter(s, c, f))
    ensures c.timerFiredAt.Some? && s.pending != [] ==> f.released > 0 || f.outFull
  {
    if c.timerFiredAt.None? {
      assert f.released == 0;
    }
  }

  /** The delay of a call is that of the packets taken so far; before the first call there are none. */
  lemma DelayFixed<P>(sys: Sys<P>, s: DelayState<P>, d: nat)
    requires QueueKept(sys, s) && (s.delay.Some? ==> d == s.delay.value)
    ensures SentAfterDelay(sys.sent, sys.taken, d) && s.pending == Stamps(sys.taken[|sys.sent|..], d)
  {
    if s.delay.None? {
      assert sys.taken == [] && sys.sent == [];
      assert s.pending == [];
    }
  }

  lemma CallKeepsQueue<P>(sys: Sys<P>, s: DelayState<P>, c: Context, f: Effect<P>, times: seq<Passage<P>>,
    end: Instant, u: Sys<P>)
    requires QueueKept(sys, s) && Possible(s, c, f, sys.clock, end)
      && Released(times, s.pending, f.released, sys.clock, end)
    requires c.timerFiredAt.Some? ==> c.timerFiredAt.value <= sys.clock
    requires u.clock == end && u.taken == sys.taken + f.accepted && u.sent == sys.sent + times
    ensures QueueKept(u, AfterEffect(s, f))
  {
    DelayFixed(sys, s, f.delay);
    assert |times| == |DataOf(times)| == |PendingData(s.pending[..f.released])| == f.released;
    TakenAppended(sys.taken, f.accepted, sys.clock, end);
    SentAppended(sys.sent, sys.taken, times, f.accepted, s.pending, f.released, c.timerFiredAt, f.delay, sys.clock,
      end);
    PendingShifted(sys.taken, |sys.sent|, f.released, f.accepted, f.delay);
  }

  lemma TakenAppended<P>(taken: seq<Passage<P>>, more: seq<Passage<P>>, clock: Instant, end: Instant)
    requires TakenInOrder(taken, clock) && Between(more, clock, end) && clock <= end
    ensures TakenInOrder(taken + more, end)
  {
  }

  lemma SentAppended<P>(sent: seq<Passage<P>>, taken: seq<Passage<P>>, times: seq<Passage<P>>, more: seq<Passage<P>>,
                        pending: seq<Delayed<P>>, r: nat, stamp: Option<Instant>, delay: nat, clock: Instant,
                        end: Instant)
    requires SentAfterDelay(sent, taken, delay) && pending == Stamps(taken[|sent|..], delay)
    requires r <= DueCount(pending, stamp) && Released(times, pending, r, clock, end)
    requires stamp.Some? ==> stamp.value <= clock
    ensures SentAfterDelay(sent + times, taken + more, delay)
  {
    assert |times| == |DataOf(times)| == |PendingData(pending[..r])| == r;
    var a, b := sent + times, taken + more;
    forall i | |sent| <= i < |a| ensures a[i].data == b[i].data && b[i].at + delay <= a[i].at {
      var j := i - |sent|;
      assert times[j].data == DataOf(times)[j] == PendingData(pending[..r])[j] == pending[j].data;
      assert pending[j].readyTime <= stamp.value <= clock <= times[j].at;
    }
  }

  lemma PendingShifted<P>(taken: seq<Passage<P>>, k: nat, r: nat, more: seq<Passage<P>>, delay: nat)
    requires k + r <= |taken|
    ensures Stamps(taken[k..], delay)[r..] + Stamps(more, delay) == Stamps((taken + more)[k + r..], delay)
  {
    assert (taken + more)[k + r..] == taken[k..][r..] + more;
  }

  /** What a paused call leaves of the machine, as far as the timer protocol looks. */
  lemma PausedCallShape<P>(m: Machine<Comp<P>>, d: NodeId, f: Effect<P>)
    requires RunsNode(m, d) && m.pc.job.phase.Looping? && m.pc.job.component.DelayNode?
    requires f.ending.Paused? && f.released <= |m.pc.job.component.state.pending|
    ensures var s, c := m.pc.job.component.state, m.pc.job.context;
      var t := Next(m, Call(DelayReply(s, c, f)));
      && RunsNode(t, d) && t.state.timerLatest == m.state.timerLatest
      && t.pc.job.context.timerFiredAt == ContextAfter(s, c, f).timerFiredAt
      && t.pc.job.context.wakeAt == ContextAfter(s, c, f).wakeAt
      && t.pc.job.outcome.finished == m.pc.job.outcome.finished && !t.pc.job.phase.Fetched?
      && (t.pc.job.phase.Looping? ==> t.pc.job.outcome.didWork)
  {
  }

  lemma PausedCallKeepsTimer<P>(m: Machine<Comp<P>>, d: NodeId, f: Effect<P>, clock: Instant, end: Instant)
    requires RunsNode(m, d) && m.pc.job.phase.Looping? && m.pc.job.component.DelayNode?
    requires TimerKept(m, d, clock, m.pc.job.component.state.pending, m.pc.job.context)
    requires Possible(m.pc.job.component.state, m.pc.job.context, f, clock, end) && f.ending.Paused?
    ensures var s := m.pc.job.component.state;
      var t := Next(m, Call(DelayReply(s, m.pc.job.context, f)));
      TimerKept(t, d, end, AfterEffect(s, f).pending, t.pc.job.context)
  {
    PausedCallShape(m, d, f);
    CallKeepsProtocol(m.state.timerLatest, d, m.pc.job.component.state, m.pc.job.context, f, clock, end);
  }

  lemma CallKeepsTimer<P>(m: Machine<Comp<P>>, d: NodeId, f: Effect<P>, clock: Instant, end: Instant)
    requires RunsNode(m, d) && m.pc.job.phase.Looping? && m.pc.job.component.DelayNode?
    requires TimerKept(m, d, clock, m.pc.job.component.state.pending, m.pc.job.context)
    requires Possible(m.pc.job.component.state, m.pc.job.context, f, clock, end)
    ensures var s := m.pc.job.component.state;
      var t := Next(m, Call(DelayReply(s, m.pc.job.context, f)));
      && RunsNode(t, d) && t.pc.job.component == DelayNode(AfterEffect(s, f))
      && TimerKept(t, d, end, AfterEffect(s, f).pending, t.pc.job.context)
  {
    if f.ending.Paused? {
      PausedCallKeepsTimer(m, d, f, clock, end);
    }
  }

  lemma CallKeeps<P>(sys: Sys<P>, d: NodeId, f: Effect<P>, times: seq<Passage<P>>, end: Instant, left: nat)
    requires SysKept(sys, d) && MoveLegal(sys, d, DelayCall(f, times, end, left))
    ensures SysKept(MoveNext(sys, d, DelayCall(f, times, end, left)), d)
  {
    var m := sys.machine;
    assert d in CheckedOut(m.pc);
    StepKeepsSound(m, Call(DelayReply(m.pc.job.component.state, m.pc.job.context, f)));
    CallKeepsTimer(m, d, f, sys.clock, end);
    CallKeepsQueue(sys, m.pc.job.component.state, m.pc.job.context, f, times, end,
      MoveNext(sys, d, DelayCall(f, times, end, left)));
  }

  /**
   What a call did for its fired stamp: all that the stamp covers went out, or as much as OUT had room for
   when the call began; so with any room the front packet went out first, and without it kept its place.
   */
  ghost predicate StampServed<P>(s: DelayState<P>, c: Context, f: Effect<P>, times: seq<Passage<P>>, room: nat) {
    var due := DueCount(s.pending, c.timerFiredAt);
    && s.pending != [] && 0 < due && f.released <= due && DataOf(times) == PendingData(s.pending[..f.released])
    && (f.released == due || room <= f.released)
    && (room > 0 ==> times != [] && times[0].data == s.pending[0].data)
    && (f.released == 0 ==> room == 0 && f.outFull && AfterEffect(s, f).pending[0] == s.pending[0])
  }

  lemma DueFrontReleased<P>(s: DelayState<P>, c: Context, f: Effect<P>, times: seq<Passage<P>>,
    lo: Instant, hi: Instant, room: nat, left: nat)
    requires Possible(s, c, f, lo, hi) && Released(times, s.pending, f.released, lo, hi) && !f.ending.StopSignal?
    requires s.pending != [] && c.timerFiredAt == Some(s.pending[0].readyTime) && RoomSpent(room, left, f)
    ensures StampServed(s, c, f, times, room)
  {
    if f.released > 0 {
      assert |DataOf(times)| == f.released;
      assert times[0].data == DataOf(times)[0] == PendingData(s.pending[..f.released])[0];
    }
  }

  lemma FiredCallReleases<P>(sys: Sys<P>, d: NodeId, f: Effect<P>, times: seq<Passage<P>>, end: Instant, left: nat)
    requires SysKept(sys, d) && MoveLegal(sys, d, DelayCall(f, times, end, left))
    requires ContextOf(sys.machine, d).timerFiredAt.Some? && !f.ending.StopSignal?
    ensures NodeOf(sys.machine, d).DelayNode?
    ensures StampServed(NodeOf(sys.machine, d).state, ContextOf(sys.machine, d), f, times, sys.room)
  {
    assert d in CheckedOut(sys.machine.pc);
    DueFrontReleased(NodeOf(sys.machine, d).state, ContextOf(sys.machine, d), f, times, sys.clock, end, sys.room, left);
  }

  /** A call that panics ends the dispatch, and changes nothing else of what is kept. */
  lemma PanicKeeps<P>(sys: Sys<P>, d: NodeId)
    requires SysKept(sys, d) && MoveLegal(sys, d, PanicCall)
    ensures SysKept(MoveNext(sys, d, PanicCall), d)
  {
    var m := sys.machine;
    assert d in CheckedOut(m.pc);
    StepKeepsSound(m, Call(PanicReply(m.pc.job.component, m.pc.job.context)));
  }

  lemma MoveKeeps<P>(sys: Sys<P>, d: NodeId, x: Move<P>)
    requires SysKept(sys, d) && MoveLegal(sys, d, x)
    ensures SysKept(MoveNext(sys, d, x), d)
  {
    match x
    case Sched(l) =>
      StepKeepsSound(sys.machine, l);
      if d in Next(sys.machine, l).state.readyFlags {
        SchedKeepsNode(sys, d, l);
        SchedKeepsTimer(sys, d, l, NodeOf(sys.machine, d).state.pending);
      }
    case SendConf(_) =>
    case MakeRoom(_) =>
    case DelayCall(f, times, end, left) => CallKeeps(sys, d, f, times, end, left);
    case PanicCall => PanicKeeps(sys, d);
  }

  lemma {:induction false} MovesKeep<P>(sys: Sys<P>, d: NodeId, xs: seq<Move<P>>)
    requires SysKept(sys, d) && Moves(sys, d, xs)
    ensures SysKept(MovedTo(sys, d, xs), d)
    decreases |xs|
  {
    if xs != [] {
      MoveKeeps(sys, d, xs[0]);
      MovesKeep(MoveNext(sys, d, xs[0]), d, xs[1..]);
    }
  }

  // ----- the theorems -----

  /** A started network in which d is a fresh Delay. */
  ghost predicate FreshDelay<P>(sys: Sys<P>, d: NodeId) {
    && Structure(sys.machine.state, {}) && sys.machine.pc.Polling? && sys.machine.state.timerLatest == map[]
    && d in sys.machine.state.nodes && sys.machine.state.components[d] == DelayNode(DelayState(None, []))
    && sys.machine.state.nodes[d].timerFiredAt == None && sys.machine.state.nodes[d].wakeAt == None
    && sys.taken == [] && sys.sent == []
  }

  /**
   No delayed packet is stranded: whenever the node is at rest, its queue is non-empty exactly when its
   live deadline is the front packet's ready time, or it is in the ready queue with that ready time as
   its fired stamp; never both.
   */
  lemma NoStrandedPacket<P>(sys: Sys<P>, d: NodeId, xs: seq<Move<P>>)
    requires FreshDelay(sys, d) && Moves(sys, d, xs) && d in MovedTo(sys, d, xs).machine.state.nodes
    ensures var m := MovedTo(sys, d, xs).machine;
      && d in m.state.components && m.state.components[d].DelayNode?
      && var pending := m.state.components[d].state.pending;
      var live := d in m.state.timerLatest; var stamp := m.state.nodes[d].timerFiredAt;
      && (pending != [] <==> live || (d in m.state.readyQueue && stamp.Some?))
      && (live ==> pending != [] && m.state.timerLatest[d] == pending[0].readyTime && stamp.None?)
      && (stamp.Some? ==> pending != [] && stamp.value == pending[0].readyTime && d in m.state.readyQueue)
  {
    MovesKeep(sys, d, xs);
  }

  /**
   The first call of a dispatch that the timer caused serves the stamp: it sends all that the stamp covers,
   or as many packets as OUT had room for.
   */
  lemma FiredDispatchReleases<P>(sys: Sys<P>, d: NodeId, xs: seq<Move<P>>, f: Effect<P>, times: seq<Passage<P>>,
    end: Instant, left: nat)
    requires FreshDelay(sys, d) && Moves(sys, d, xs)
    requires MoveLegal(MovedTo(sys, d, xs), d, DelayCall(f, times, end, left))
    requires ContextOf(MovedTo(sys, d, xs).machine, d).timerFiredAt.Some? && !f.ending.StopSignal?
    ensures var u := MovedTo(sys, d, xs);
      StampServed(NodeOf(u.machine, d).state, ContextOf(u.machine, d), f, times, u.room)
  {
    MovesKeep(sys, d, xs);
    FiredCallReleases(MovedTo(sys, d, xs), d, f, times, end, left);
  }

  // ----- the configured delay -----

  /** Move i is the first call of Delay that does not panic. */
  ghost predicate FirstCall<P>(xs: seq<Move<P>>, i: nat) {
    i < |xs| && xs[i].DelayCall? && forall j :: 0 <= j < i ==> !xs[j].DelayCall?
  }

  function ConfSent<P>(xs: seq<Move<P>>): seq<Conf> {
    if xs == [] then [] else (if xs[0].SendConf? then [xs[0].packet] else []) + ConfSent(xs[1..])
  }

  lemma {:induction false} MovesSplit<P>(sys: Sys<P>, d: NodeId, xs: seq<Move<P>>, i: nat)
    requires Moves(sys, d, xs) && i <= |xs|
    ensures Moves(sys, d, xs[..i]) && Moves(MovedTo(sys, d, xs[..i]), d, xs[i..])
    ensures MovedTo(sys, d, xs) == MovedTo(MovedTo(sys, d, xs[..i]), d, xs[i..])
    decreases i
  {
    if i == 0 {
      assert xs[..0] == [] && xs[0..] == xs;
    } else {
      assert xs[..i][0] == xs[0] && xs[..i][1..] == xs[1..][..i - 1] && xs[i..] == xs[1..][i - 1..];
      MovesSplit(MoveNext(sys, d, xs[0]), d, xs[1..], i - 1);
    }
  }

  /** No move makes a node that was not registered. */
  lemma MoveShrinks<P>(sys: Sys<P>, d: NodeId, x: Move<P>)
    requires SysKept(sys, d) && MoveLegal(sys, d, x) && d in MoveNext(sys, d, x).machine.state.readyFlags
    ensures d in sys.machine.state.readyFlags
    ensures !x.DelayCall? ==> NodeOf(MoveNext(sys, d, x).machine, d) == NodeOf(sys.machine, d)
    ensures x.DelayCall? ==>
      NodeOf(sys.machine, d).DelayNode? && NodeOf(MoveNext(sys, d, x).machine, d).DelayNode?
      && NodeOf(MoveNext(sys, d, x).machine, d).state.delay == Some(x.effect.delay)
  {
    if x.Sched? {
      SchedKeepsNode(sys, d, x.act);
    }
  }

  /** Before its first call Delay has read nothing off CONF, */
  lemma MoveConf<P>(sys: Sys<P>, d: NodeId, x: Move<P>)
    requires MoveLegal(sys, d, x) && !x.DelayCall? && !x.PanicCall?
    ensures MoveNext(sys, d, x).conf == sys.conf + if x.SendConf? then [x.packet] else []
  {
  }

  lemma {:induction false} ConfWaits<P>(sys: Sys<P>, d: NodeId, xs: seq<Move<P>>)
    requires Moves(sys, d, xs) && forall j :: 0 <= j < |xs| ==> !xs[j].DelayCall? && !xs[j].PanicCall?
    ensures MovedTo(sys, d, xs).conf == sys.conf + ConfSent(xs)
    decreases |xs|
  {
    if xs != [] {
      var t, one := MoveNext(sys, d, xs[0]), if xs[0].SendConf? then [xs[0].packet] else [];
      MoveConf(sys, d, xs[0]);
      ConfWaits(t, d, xs[1..]);
      assert sys.conf + (one + ConfSent(xs[1..])) == (sys.conf + one) + ConfSent(xs[1..]);
    }
  }

  /** and is as it was. */
  lemma {:induction false} Untouched<P>(sys: Sys<P>, d: NodeId, xs: seq<Move<P>>)
    requires SysKept(sys, d) && Moves(sys, d, xs) && d in MovedTo(sys, d, xs).machine.state.readyFlags
    requires forall j :: 0 <= j < |xs| ==> !xs[j].DelayCall?
    ensures d in sys.machine.state.readyFlags
    ensures NodeOf(MovedTo(sys, d, xs).machine, d) == NodeOf(sys.machine, d)
    decreases |xs|
  {
    if xs != [] {
      MoveKeeps(sys, d, xs[0]);
      Untouched(MoveNext(sys, d, xs[0]), d, xs[1..]);
      MoveShrinks(sys, d, xs[0]);
    }
  }

  /** Once the delay is set, no move changes it. */
  lemma {:induction false} DelayStays<P>(sys: Sys<P>, d: NodeId, xs: seq<Move<P>>)
    requires SysKept(sys, d) && Moves(sys, d, xs) && d in MovedTo(sys, d, xs).machine.state.readyFlags
    ensures d in sys.machine.state.readyFlags && NodeOf(sys.machine, d).DelayNode?
    ensures NodeOf(sys.machine, d).state.delay.Some? ==>
      NodeOf(MovedTo(sys, d, xs).machine, d).DelayNode?
      && NodeOf(MovedTo(sys, d, xs).machine, d).state.delay == NodeOf(sys.machine, d).state.delay
    decreases |xs|
  {
    if xs != [] {
      MoveKeeps(sys, d, xs[0]);
      DelayStays(MoveNext(sys, d, xs[0]), d, xs[1..]);
      MoveShrinks(sys, d, xs[0]);
    }
  }

  /** A call that panics ends in retirement: no other call of Delay comes after it. */
  ghost predicate Doomed<P>(sys: Sys<P>, d: NodeId) {
    && Sound(sys.machine)
    && (d in sys.machine.state.readyFlags ==>
          RunsNode(sys.machine, d) && sys.machine.pc.job.phase.Done? && sys.machine.pc.job.outcome.finished)
  }

  lemma {:induction false} DoomedRetires<P>(sys: Sys<P>, d: NodeId, xs: seq<Move<P>>)
    requires Doomed(sys, d) && Moves(sys, d, xs)
    ensures Doomed(MovedTo(sys, d, xs), d) && forall j :: 0 <= j < |xs| ==> !xs[j].DelayCall?
    decreases |xs|
  {
    if xs != [] {
      DoomedStep(sys, d, xs[0]);
      DoomedRetires(MoveNext(sys, d, xs[0]), d, xs[1..]);
    }
  }

  lemma DoomedStep<P>(sys: Sys<P>, d: NodeId, x: Move<P>)
    requires Doomed(sys, d) && MoveLegal(sys, d, x)
    ensures Doomed(MoveNext(sys, d, x), d) && !x.DelayCall? && !x.PanicCall?
  {
    var m := sys.machine;
    assert RunsNode(m, d) ==> d in CheckedOut(m.pc);
    if x.Sched? {
      StepKeepsSound(m, x.act);
      match x.act
      case Pop => PopKeepsStructure(m.state);
      case _ =>
    }
  }

  /** No call panicked before one that did not. */
  lemma NoPanicBefore<P>(sys: Sys<P>, d: NodeId, xs: seq<Move<P>>, i: nat)
    requires SysKept(sys, d) && Moves(sys, d, xs) && i < |xs| && xs[i].DelayCall?
    ensures forall j :: 0 <= j < i ==> !xs[j].PanicCall?
  {
    forall j | 0 <= j < i ensures !xs[j].PanicCall? {
      if xs[j].PanicCall? {
        MovesSplit(sys, d, xs, j);
        MovesKeep(sys, d, xs[..j]);
        var u := MovedTo(sys, d, xs[..j]);
        assert xs[j..][0] == xs[j] && xs[j..][1..] == xs[j + 1..];
        assert xs[j + 1..][i - j - 1].DelayCall?;
        PanicKeeps(u, d);
        assert Doomed(MoveNext(u, d, PanicCall), d);
        DoomedRetires(MoveNext(u, d, PanicCall), d, xs[j + 1..]);
      }
    }
  }

  /** The first call, with the state it finds. */
  lemma FirstCallReads<P>(sys: Sys<P>, d: NodeId, xs: seq<Move<P>>, i: nat)
    requires FreshDelay(sys, d) && Moves(sys, d, xs) && d in MovedTo(sys, d, xs).machine.state.readyFlags
    requires FirstCall(xs, i)
    ensures Moves(sys, d, xs[..i]) && SysKept(MovedTo(sys, d, xs[..i]), d)
    ensures var v := MovedTo(sys, d, xs[..i]);
      && Moves(v, d, xs[i..]) && MovedTo(sys, d, xs) == MovedTo(v, d, xs[i..])
      && v.conf == sys.conf + ConfSent(xs[..i]) && NodeOf(v.machine, d) == DelayNode(DelayState(None, []))
  {
    MovesSplit(sys, d, xs, i);
    var v := MovedTo(sys, d, xs[..i]);
    MovesKeep(sys, d, xs[..i]);
    NoPanicBefore(sys, d, xs, i);
    DelayStays(v, d, xs[i..]);
    assert forall j :: 0 <= j < i ==> xs[..i][j] == xs[j];
    ConfWaits(sys, d, xs[..i]);
    Untouched(sys, d, xs[..i]);
  }

  /** What that call reads is the delay ever after. */
  lemma DelayComesFromConf<P>(sys: Sys<P>, d: NodeId, xs: seq<Move<P>>, i: nat)
    requires FreshDelay(sys, d) && Moves(sys, d, xs) && d in MovedTo(sys, d, xs).machine.state.readyFlags
    requires FirstCall(xs, i)
    ensures var u, conf := MovedTo(sys, d, xs), sys.conf + ConfSent(xs[..i]);
      && NodeOf(u.machine, d).DelayNode?
      && NodeOf(u.machine, d).state.delay == Some(if conf != [] && conf[0].Duration? then conf[0].us else 50)
  {
    FirstCallReads(sys, d, xs, i);
    var v, rest := MovedTo(sys, d, xs[..i]), xs[i..];
    assert rest[0] == xs[i] && rest[1..] == xs[i + 1..];
    MoveKeeps(v, d, xs[i]);
    DelayStays(MoveNext(v, d, xs[i]), d, xs[i + 1..]);
    MoveShrinks(v, d, xs[i]);
  }

  /** What is kept, for a node whose delay is set. */
  lemma KeptMeans<P>(u: Sys<P>, d: NodeId, us: nat)
    requires SysKept(u, d) && d in u.machine.state.readyFlags && NodeOf(u.machine, d).DelayNode?
    requires NodeOf(u.machine, d).state.delay == Some(us)
    ensures var pending := NodeOf(u.machine, d).state.pending;
      && |u.sent| + |pending| == |u.taken|
      && (forall k :: 0 <= k < |u.sent| ==>
            u.sent[k].data == u.taken[k].data && u.taken[k].at + us <= u.sent[k].at)
      && (forall k :: 0 <= k < |pending| ==>
            pending[k] == Delayed(u.taken[|u.sent| + k].data, u.taken[|u.sent| + k].at + us))
      && (d in u.machine.state.nodes && d in u.machine.state.timerLatest ==>
            |u.sent| < |u.taken| && u.machine.state.timerLatest[d] == u.taken[|u.sent|].at + us)
  {
    assert d in u.machine.state.nodes ==> d !in CheckedOut(u.machine.pc);
  }

  /**
   The delay is the one sent on CONF: if the first packet that was there by Delay's first call is a duration,
   every packet is ready that long after it was taken and leaves no earlier, and whenever the node is at
   rest with a live deadline, that is the front packet's; with no packet there, or an unreadable one, it is
   50 microseconds.
   */
  lemma ConfiguredDelayHolds<P>(sys: Sys<P>, d: NodeId, xs: seq<Move<P>>, i: nat)
    requires FreshDelay(sys, d) && Moves(sys, d, xs) && d in MovedTo(sys, d, xs).machine.state.readyFlags
    requires FirstCall(xs, i)
    ensures var u, conf := MovedTo(sys, d, xs), sys.conf + ConfSent(xs[..i]);
      var us := if conf != [] && conf[0].Duration? then conf[0].us else 50;
      && NodeOf(u.machine, d).DelayNode?
      && var pending := NodeOf(u.machine, d).state.pending;
      && |u.sent| + |pending| == |u.taken|
      && (forall k :: 0 <= k < |u.sent| ==>
            u.sent[k].data == u.taken[k].data && u.taken[k].at + us <= u.sent[k].at)
      && (forall k :: 0 <= k < |pending| ==>
            pending[k] == Delayed(u.taken[|u.sent| + k].data, u.taken[|u.sent| + k].at + us))
      && (d in u.machine.state.nodes && d in u.machine.state.timerLatest ==>
            |u.sent| < |u.taken| && u.machine.state.timerLatest[d] == u.taken[|u.sent|].at + us)
  {
    var conf := sys.conf + ConfSent(xs[..i]);
    DelayComesFromConf(sys, d, xs, i);
    MovesKeep(sys, d, xs);
    KeptMeans(MovedTo(sys, d, xs), d, if conf != [] && conf[0].Duration? then conf[0].us else 50);
  }

  /** Every call the component makes is a move of the system. */
  lemma DoneIsMove<P>(sys: Sys<P>, d: NodeId, a: Stand<P>, world: Moment -> Gust<P>, clear: bool, z: Stand<P>,
                      x: Deed<P>)
    requires InDelayCall(sys, d) && sys.machine.pc.job.component.state == a.state
    requires sys.clock == a.clock && sys.room == a.env.room && !ConfPanics(a.state, sys.conf)
    requires Delay.Done(a, sys.machine.pc.job.context, world, clear, z, x)
    requires DelayRead(a.state.delay, sys.conf, Some(x.effect.delay))
    ensures var move := DelayCall(x.effect, x.times, z.clock, z.env.room);
      && MoveLegal(sys, d, move)
      && var reply := DelayReply(a.state, sys.machine.pc.job.context, x.effect);
      && reply.component == DelayNode(z.state) && reply.result == x.result
      && (!x.effect.ending.StopSignal? ==> reply.context == x.after)
  {
  }

  /** A call that overran its budget ends the dispatch all the same: the scheduler charges the units reported. */
  lemma OverrunEndsDispatch<P>(s: DelayState<P>, c: Context, f: Effect<P>, lo: Instant, hi: Instant)
    requires Possible(s, c, f, lo, hi) && f.ending.Paused? && f.released + |f.accepted| > c.remainingBudget
    ensures ResultOf(f).DidWork?
    ensures Charge(c.remainingBudget, ContextAfter(s, c, f), ResultOf(f).units).remainingBudget == 0
  {
  }

  /**
   Delay is lossless and keeps the order, and its delay is a lower bound: until the node retires, the
   packets sent and then those pending are the packets taken from IN, in order; ready times never
   decrease along the queue; and every packet left at least the delay after it was taken.
   */
  lemma DelayIsFaithful<P>(sys: Sys<P>, d: NodeId, xs: seq<Move<P>>)
    requires FreshDelay(sys, d) && Moves(sys, d, xs) && d in MovedTo(sys, d, xs).machine.state.readyFlags
    ensures var u := MovedTo(sys, d, xs);
      && NodeOf(u.machine, d).DelayNode?
      && var s := NodeOf(u.machine, d).state;
      && DataOf(u.taken) == DataOf(u.sent) + PendingData(s.pending)
      && (forall i, j :: 0 <= i < j < |s.pending| ==> s.pending[i].readyTime <= s.pending[j].readyTime)
      && (forall i :: 0 <= i < |u.sent| ==> i < |u.taken| && u.taken[i].at + DelayOr0(s) <= u.sent[i].at)
  {
    MovesKeep(sys, d, xs);
  }

  /**
   Delay keeps the contract of the quiescence theorem for IN: a call, arrivals in mid-call included, is a
   legal stretch of the network's run, and returns NoWork only after IN was found empty. What happens to
   the ring and the effect are those of `DelayComponent.Process`: `Done` with `Answers` gives the premise on NoWork.
   */
  lemma DelayKeepsContract<P>(top: Network.Topology, net: Network.Net<Comp<P>, P>, ch: Network.Channel,
      events: seq<Ring.RingEvent<P>>, now: seq<P>, f: Effect<P>)
    requires ch in top.reader && ch in net.inbox && Network.InCall(net, top.reader[ch])
    requires net.machine.pc.job.component.DelayNode?
    requires f.released <= |net.machine.pc.job.component.state.pending|
    requires forall c :: c in top.drained && c in top.reader && top.reader[c] == top.reader[ch] ==> c == ch
    requires Ring.Leads(net.inbox[ch], events, now, top.capacity) && (ResultOf(f).NoWork? ==> Ring.SawEmpty in events)
    ensures var job := net.machine.pc.job;
      var reply := DelayReply(job.component.state, job.context, f);
      var ls := Network.RingLabels<Comp<P>, P>(ch, events) + [Network.NetLabel.Sched(Call(reply))];
      && Network.NetRun(top, net, ls)
      && Network.NetAfter(top, net, ls).machine == Next(net.machine, Call(reply))
      && Network.NetAfter(top, net, ls).inbox == net.inbox[ch := now]
  {
    var job := net.machine.pc.job;
    Network.CallKeepsContract(top, net, ch, events, DelayReply(job.component.state, job.context, f));
  }
}
