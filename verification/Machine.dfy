/**
 The scheduler as a state machine: one executor thread that alternates between critical sections and
 an unlocked window in which it runs a component, and other threads that signal, arm timers and stop
 at any point where they can get the lock. Every run carries a log of what happened so far.
 */
module Machine {
  import opened Prelude
  import opened ComponentApi
  import opened SchedulerModel

  /** `Fetched`: popped, flag not yet cleared. `Looping`: in the budget loop. `Done`: loop left, not yet settled. */
  datatype Phase = Fetched | Looping | Done

  datatype Execution<C> = Execution(node: NodeId, component: C, context: Context, outcome: Outcome, phase: Phase)

  /**
   Where the executor is. In `Committed` it holds the lock, has read `running` as true and is about
   to pop; only `stop`, which takes no lock, can happen then.
   */
  datatype Pc<C> = Polling | Committed | Running(job: Execution<C>) | Exited

  datatype Event =
    | Signalled(node: NodeId)
    | Armed(node: NodeId, when: Instant)
    | Fired(node: NodeId, when: Instant, at: Instant)
    | Dispatched(node: NodeId)
    | Called(node: NodeId)
    | Retired(node: NodeId)
    | StopRequested

  datatype Machine<C> = Machine(state: State<C>, pc: Pc<C>, running: bool, log: seq<Event>)

  datatype Label<C> =
    | Signal(node: NodeId)
    | Wake(node: NodeId, when: Instant)
    | Stop
    | Drain(now: Instant)
    | Commit
    | Exit
    | Pop
    | Begin
    | Call(reply: Reply<C>)
    | Settle

  predicate Legal<C>(m: Machine<C>, l: Label<C>) {
    match l
    case Signal(_) => !m.pc.Committed?
    case Wake(_, _) => !m.pc.Committed?
    case Stop => true
    case Drain(_) => m.pc.Polling?
    case Commit => m.pc.Polling? && m.running && m.state.readyQueue != []
    case Exit => m.pc.Polling? && !m.running
    case Pop => m.pc.Committed?
    case Begin => m.pc.Running? && m.pc.job.phase.Fetched?
    case Call(_) => m.pc.Running? && m.pc.job.phase.Looping?
    case Settle => m.pc.Running? && m.pc.job.phase.Done?
  }

  function FiredEvents(es: seq<TimerWake>, now: Instant): seq<Event> {
    seq(|es|, i requires 0 <= i < |es| => Fired(es[i].node, es[i].when, now))
  }

  /** The execution after one call, as the body of the budget loop computes it. */
  function AfterCall<C>(e: Execution<C>, r: Reply<C>): Execution<C> {
    match r.result
    case DidWork(units) =>
      var ctx := Charge(e.context.remainingBudget, r.context, units);
      e.(component := r.component, context := ctx, outcome := AddWork(e.outcome, units),
         phase := if ctx.remainingBudget == 0 then Done else Looping)
    case NoWork => e.(component := r.component, context := r.context, phase := Done)
    case Finished =>
      e.(component := r.component, context := r.context, outcome := e.outcome.(finished := true), phase := Done)
    case Panicked =>
      e.(component := r.component, context := r.context, outcome := e.outcome.(finished := true, panicked := true),
        phase := Done)
  }

  /** The shared ready flag of n after a call: raised by the component, cleared again if it ended. */
  function FlagAfterCall<C>(s: State<C>, n: NodeId, r: Reply<C>): State<C> {
    if n !in s.readyFlags then s
    else s.(readyFlags := s.readyFlags[n :=
      (s.readyFlags[n] || r.raised) && !r.result.Finished? && !r.result.Panicked?])
  }

  function ClearFlag<C>(s: State<C>, n: NodeId): State<C> {
    if n in s.readyFlags then s.(readyFlags := s.readyFlags[n := false]) else s
  }

  ghost function Next<C>(m: Machine<C>, l: Label<C>): Machine<C>
    requires Legal(m, l)
  {
    match l
    case Signal(n) =>
      m.(state := SignalReady(m.state, n), log := if n in m.state.readyFlags then m.log + [Signalled(n)] else m.log)
    case Wake(n, when) =>
      m.(state := WakeAt(m.state, n, when), log := if n in m.state.nodes then m.log + [Armed(n, when)] else m.log)
    case Stop => m.(running := false, log := m.log + [StopRequested])
    case Drain(now) =>
      m.(state := Drained(m.state, now), log := m.log + FiredEvents(DueInOrder(m.state.timerLatest, now), now))
    case Commit => m.(pc := Committed)
    case Exit => m.(pc := Exited)
    case Pop =>
      var (s, job) := PopFront(m.state);
      (match job
       case Nothing => m.(state := s, pc := Polling)
       case Job(n, c, ctx) =>
         m.(state := s, pc := Running(Execution(n, c, ctx, NO_OUTCOME, Fetched)), log := m.log + [Dispatched(n)]))
    case Begin =>
      var e := m.pc.job;
      m.(state := ClearFlag(m.state, e.node), pc := Running(e.(context := Prepared(e.context), phase := Looping)))
    case Call(r) =>
      var e := m.pc.job;
      m.(state := FlagAfterCall(m.state, e.node, r), pc := Running(AfterCall(e, r)), log := m.log + [Called(e.node)])
    case Settle =>
      var e := m.pc.job;
      m.(state := Settled(m.state, e.node, e.component, e.context, e.outcome),
         pc := Polling,
         running := m.running && !LastOneOut(m.state, e.outcome),
         log := m.log + SettleEvents(e))
  }

  function SettleEvents<C>(e: Execution<C>): seq<Event> {
    if e.outcome.finished then [Retired(e.node)]
    else if e.context.wakeAt.Some? then [Armed(e.node, e.context.wakeAt.value)]
    else []
  }

  ghost predicate IsRun<C>(m: Machine<C>, ls: seq<Label<C>>)
    decreases |ls|
  {
    ls == [] || (Legal(m, ls[0]) && IsRun(Next(m, ls[0]), ls[1..]))
  }

  ghost function After<C>(m: Machine<C>, ls: seq<Label<C>>): Machine<C>
    requires IsRun(m, ls)
    decreases |ls|
  {
    if ls == [] then m else After(Next(m, ls[0]), ls[1..])
  }

  lemma RunConcat<C>(m: Machine<C>, a: seq<Label<C>>, b: seq<Label<C>>)
    requires IsRun(m, a) && IsRun(After(m, a), b)
    ensures IsRun(m, a + b) && After(m, a + b) == After(After(m, a), b)
    decreases |a|
  {
    if a == [] {
      assert a + b == b;
    } else {
      assert (a + b)[1..] == a[1..] + b;
      RunConcat(Next(m, a[0]), a[1..], b);
    }
  }

  lemma RunSplit<C>(m: Machine<C>, a: seq<Label<C>>, b: seq<Label<C>>)
    requires IsRun(m, a + b)
    ensures IsRun(m, a) && IsRun(After(m, a), b) && After(m, a + b) == After(After(m, a), b)
    decreases |a|
  {
    if a == [] {
      assert a + b == b;
    } else {
      assert (a + b)[1..] == a[1..] + b;
      RunSplit(Next(m, a[0]), a[1..], b);
    }
  }

  /** The structural invariant that holds at every release of the lock once registration is over. */
  ghost predicate Structure<C>(s: State<C>, checkedOut: set<NodeId>) {
    && NoDup(s.readyQueue)
    && (forall n :: n in s.readyQueue <==> n in s.readySet)
    && s.metrics.queueDepth == |s.readyQueue|
    && s.nodes.Keys == s.components.Keys
    && s.nodes.Keys !! checkedOut
    && s.readyFlags.Keys == s.nodes.Keys + checkedOut
    && s.readySet <= s.readyFlags.Keys
    && s.timerLatest.Keys <= s.readyFlags.Keys
    && s.readyFlags.Keys <= s.metrics.executionsPerNode.Keys
    && s.readyFlags.Keys <= s.metrics.workUnitsPerNode.Keys
  }

  ghost function CheckedOut<C>(pc: Pc<C>): set<NodeId> {
    if pc.Running? then {pc.job.node} else {}
  }

  ghost predicate Sound<C>(m: Machine<C>) {
    && Structure(m.state, CheckedOut(m.pc))
    && (m.pc.Committed? ==> m.running || StopRequested in m.log)
    && (m.pc.Committed? ==> m.state.readyQueue != [])
    && (m.pc.Running? && m.pc.job.phase.Looping? ==> 0 < m.pc.job.context.remainingBudget <= MAX_BUDGET)
  }

  lemma NewNodesFresh(es: seq<TimerWake>, ready: set<NodeId>)
    requires forall i, j :: 0 <= i < j < |es| ==> es[i].node != es[j].node
    ensures NoDup(NewNodes(es, ready))
    ensures forall n :: n in NewNodes(es, ready) <==> n !in ready && exists e :: e in es && e.node == n
  {
    if es != [] {
      NewNodesFresh(es[1..], ready);
      assert es == [es[0]] + es[1..];
    }
  }

  lemma DueDistinct(latest: map<NodeId, Instant>, now: Instant)
    ensures forall i, j :: 0 <= i < j < |DueInOrder(latest, now)| ==>
      DueInOrder(latest, now)[i].node != DueInOrder(latest, now)[j].node
  {
    DueOrder(latest, now);
    var es := DueInOrder(latest, now);
    forall i, j | 0 <= i < j < |es| ensures es[i].node != es[j].node {
      assert es[i] in es && es[j] in es;
      EarlierIsStrictOrder(es[i], es[j], es[i]);
    }
  }

  lemma NewNodesOfDue(latest: map<NodeId, Instant>, now: Instant, ready: set<NodeId>)
    ensures NoDup(NewNodes(DueInOrder(latest, now), ready))
    ensures forall n :: n in NewNodes(DueInOrder(latest, now), ready) <==> n !in ready && n in Due(latest, now)
  {
    var es := DueInOrder(latest, now);
    DueOrder(latest, now);
    DueDistinct(latest, now);
    NewNodesFresh(es, ready);
    forall n ensures n in NewNodes(es, ready) <==> n !in ready && n in Due(latest, now) {
      if n in Due(latest, now) { assert TimerWake(latest[n], n) in es; }
    }
  }

  /** The earlier deadline first, and the greater name first among equal ones. */
  ghost predicate InFiringOrder(ns: seq<NodeId>, latest: map<NodeId, Instant>) {
    forall a, b :: 0 <= a < b < |ns| ==>
      && ns[a] in latest && ns[b] in latest
      && (latest[ns[a]] < latest[ns[b]] || (latest[ns[a]] == latest[ns[b]] && Less(ns[b], ns[a])))
  }

  lemma NewNodesOrdered(es: seq<TimerWake>, ready: set<NodeId>, latest: map<NodeId, Instant>)
    requires forall e :: e in es ==> e.node in latest && e.when == latest[e.node]
    requires forall i, j :: 0 <= i < j < |es| ==> Earlier(es[i], es[j])
    ensures InFiringOrder(NewNodes(es, ready), latest)
    ensures forall n :: n in NewNodes(es, ready) ==> exists e :: e in es && e.node == n
  {
    if es != [] {
      NewNodesOrdered(es[1..], ready, latest);
      assert es == [es[0]] + es[1..];
      var rest := NewNodes(es[1..], ready);
      forall b | 0 <= b < |rest| ensures rest[b] in latest && Earlier(es[0], TimerWake(latest[rest[b]], rest[b])) {
        assert rest[b] in rest;
        var e :| e in es[1..] && e.node == rest[b];
      }
    }
  }

  /**
   What a drain does: it fires exactly the nodes whose latest deadline has come, stamps each with its
   own deadline, leaves every later deadline and every other node alone, and appends those not yet
   queued by deadline, the greater name first among equals.
   */
  lemma DrainFires<C>(s: State<C>, now: Instant)
    ensures var t := Drained(s, now); var latest := s.timerLatest;
      && (forall n :: n in t.timerLatest <==> n in latest && latest[n] > now)
      && (forall n :: n in t.timerLatest ==> t.timerLatest[n] == latest[n])
      && t.nodes.Keys == s.nodes.Keys && t.readyFlags.Keys == s.readyFlags.Keys
      && (forall n :: n in s.nodes ==>
            t.nodes[n] ==
            if n in latest && latest[n] <= now then s.nodes[n].(timerFiredAt := Some(latest[n])) else s.nodes[n])
      && (forall n :: n in s.readyFlags ==> (t.readyFlags[n] <==> s.readyFlags[n] || (n in latest && latest[n] <= now)))
      && s.readyQueue <= t.readyQueue
      && InFiringOrder(t.readyQueue[|s.readyQueue|..], latest)
      && (forall n :: n in t.readyQueue[|s.readyQueue|..] <==> n !in s.readySet && n in latest && latest[n] <= now)
  {
    var es := DueInOrder(s.timerLatest, now);
    DueOrder(s.timerLatest, now);
    NewNodesOrdered(es, s.readySet, s.timerLatest);
    NewNodesOfDue(s.timerLatest, now, s.readySet);
    assert Drained(s, now).readyQueue[|s.readyQueue|..] == NewNodes(es, s.readySet);
  }

  lemma NoDupConcat<T>(a: seq<T>, b: seq<T>)
    requires NoDup(a) && NoDup(b) && forall x :: x in b ==> x !in a
    ensures NoDup(a + b)
  {
    var c := a + b;
    forall i, j | 0 <= i < j < |c| ensures c[i] != c[j] {
      if i < |a| <= j { assert a[i] in a && b[j - |a|] in b; }
    }
  }

  lemma DrainKeepsStructure<C>(s: State<C>, now: Instant)
    requires Structure(s, {})
    ensures Structure(Drained(s, now), {})
  {
    NewNodesOfDue(s.timerLatest, now, s.readySet);
    NoDupConcat(s.readyQueue, NewNodes(DueInOrder(s.timerLatest, now), s.readySet));
  }

  lemma EnqueueKeepsStructure<C>(s: State<C>, out: set<NodeId>, n: NodeId)
    requires Structure(s, out) && n in s.readyFlags
    ensures Structure(SyncDepth(Enqueue(s, n)), out)
  {
  }

  lemma PopKeepsStructure<C>(s: State<C>)
    requires Structure(s, {}) && s.readyQueue != []
    ensures PopFront(s).1.Job? && PopFront(s).1.node == s.readyQueue[0]
    ensures Structure(PopFront(s).0, {s.readyQueue[0]})
  {
    var n := s.readyQueue[0];
    assert n in s.readyQueue;
    var t := PopFront(s).0;
    forall k ensures k in t.readyQueue <==> k in t.readySet {
      if k in s.readyQueue && k != n {
        var i :| 0 <= i < |s.readyQueue| && s.readyQueue[i] == k;
        assert t.readyQueue[i - 1] == k;
      }
    }
  }

  lemma RetireKeepsStructure<C>(s: State<C>, n: NodeId)
    requires Structure(s, {n})
    ensures Structure(Retire(s, n), {})
  {
    WithoutNoDup(s.readyQueue, n);
  }

  lemma PutBackKeepsStructure<C>(s: State<C>, n: NodeId, c: C, ctx: Context, o: Outcome)
    requires Structure(s, {n})
    ensures Structure(PutBack(s, n, c, ctx, o), {})
  {
    var s1 := if ctx.wakeAt.Some? then s.(timerLatest := s.timerLatest[n := ctx.wakeAt.value]) else s;
    var s2 := s1.(components := s1.components[n := c], nodes := s1.nodes[n := ctx.(wakeAt := None)]);
    assert Structure(s2, {});
    EnqueueKeepsStructure(s2, {}, n);
  }

  lemma StepKeepsSound<C>(m: Machine<C>, l: Label<C>)
    requires Sound(m) && Legal(m, l)
    ensures Sound(Next(m, l))
  {
    match l
    case Drain(now) => DrainKeepsStructure(m.state, now);
    case Pop => PopKeepsStructure(m.state);
    case Settle =>
      var e := m.pc.job;
      var s := Accounted(m.state, e.node, e.outcome);
      assert Structure(s, {e.node});
      if e.outcome.finished {
        RetireKeepsStructure(s, e.node);
      } else {
        PutBackKeepsStructure(s, e.node, e.component, e.context, e.outcome);
      }
    case _ =>
  }

  lemma RunKeepsSound<C>(m: Machine<C>, ls: seq<Label<C>>)
    requires Sound(m) && IsRun(m, ls)
    ensures Sound(After(m, ls))
    decreases |ls|
  {
    if ls != [] {
      StepKeepsSound(m, ls[0]);
      RunKeepsSound(Next(m, ls[0]), ls[1..]);
    }
  }
}
