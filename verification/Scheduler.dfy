/**
 The scheduler itself (src/scheduler.rs): its fields, its critical sections and its main loop. Every
 method is proved to do to the fields what the functions of SchedulerModel say, although the
 deadlines live in a heap that is cleaned lazily; the main loop is proved to be a run of the machine.
 */
module Scheduler {
  import opened Prelude
  import opened ComponentApi
  import opened SchedulerModel
  import opened Machine
  import opened BudgetLoop
  import opened MainLoop
  import Fairness

  /** The greatest element in the heap's order: what `peek` and `pop` of the heap return. */
  ghost predicate IsTop(timers: multiset<TimerWake>, e: TimerWake) {
    e in timers && forall x :: x in timers && x != e ==> Earlier(e, x)
  }

  /** Every deadline of the map has an entry in the heap. The heap may hold any number of stale ones. */
  ghost predicate Witnessed(timers: multiset<TimerWake>, latest: map<NodeId, Instant>) {
    forall n :: n in latest ==> TimerWake(latest[n], n) in timers
  }

  lemma WitnessedChanges(timers: multiset<TimerWake>, latest: map<NodeId, Instant>, e: TimerWake)
    requires Witnessed(timers, latest)
    ensures Witnessed(timers + multiset{e}, latest[e.node := e.when])
    ensures Witnessed(timers - multiset{e}, latest - {e.node})
    ensures Witnessed(timers, latest - {e.node})
    ensures !(e.node in latest && latest[e.node] == e.when) ==> Witnessed(timers - multiset{e}, latest)
  {
  }

  lemma Shrinks(latest: map<NodeId, Instant>, n: NodeId)
    requires n in latest
    ensures |latest - {n}| < |latest|
  {
    assert (latest - {n}).Keys == latest.Keys - {n};
  }

  lemma TopUnique(timers: multiset<TimerWake>, a: TimerWake, b: TimerWake)
    requires IsTop(timers, a) && IsTop(timers, b)
    ensures a == b
  {
    EarlierIsStrictOrder(a, b, a);
  }

  lemma TopExists(timers: multiset<TimerWake>)
    requires timers != multiset{}
    ensures exists e: TimerWake :: IsTop(timers, e)
    decreases |timers|
  {
    var x :| x in timers;
    var rest := timers - multiset{x};
    if rest == multiset{} {
      assert forall y :: y in timers ==> y == x || y in rest;
      assert IsTop(timers, x);
    } else {
      TopExists(rest);
      var e :| IsTop(rest, e);
      var top := if Earlier(x, e) then x else e;
      forall y | y in timers && y != top ensures Earlier(top, y) {
        assert y == x || y in rest;
        EarlierIsStrictOrder(x, e, y);
        EarlierIsStrictOrder(e, x, y);
      }
      assert IsTop(timers, top);
    }
  }

  /** A live entry at the top of the heap is the first deadline of the map. */
  lemma LiveTopIsFirst(timers: multiset<TimerWake>, latest: map<NodeId, Instant>, e: TimerWake)
    requires IsTop(timers, e) && e.node in latest && latest[e.node] == e.when
    requires Witnessed(timers, latest)
    ensures IsFirst(latest, e.node) && MinDeadline(latest) == Some(e.when)
  {
    forall k | k in latest && k != e.node ensures Earlier(e, TimerWake(latest[k], k)) {
      assert TimerWake(latest[k], k) in timers;
    }
    FirstUnique(latest, e.node, First(latest));
  }

  lemma LiveNeedsEntry(timers: multiset<TimerWake>, latest: map<NodeId, Instant>)
    requires Witnessed(timers, latest)
    ensures latest.Keys != {} ==> timers != multiset{}
  {
    if latest.Keys != {} {
      var n :| n in latest;
      assert TimerWake(latest[n], n) in timers;
    }
  }

  class Scheduler<C> {
    var nodes: map<NodeId, Context>
    var components: map<NodeId, C>
    var readyFlags: map<NodeId, bool>
    var readyQueue: seq<NodeId>
    var readySet: set<NodeId>
    var timers: multiset<TimerWake>
    var timerLatest: map<NodeId, Instant>
    var metrics: Metrics
    var running: bool

    ghost predicate Valid()
      reads this
    {
      Witnessed(timers, timerLatest)
    }

    ghost function View(): State<C>
      reads this
    {
      State(nodes, components, readyFlags, readyQueue, readySet, timerLatest, metrics)
    }

    constructor ()
      ensures Valid() && View() == EmptyState() && running
    {
      nodes, components, readyFlags := map[], map[], map[];
      readyQueue, readySet := [], {};
      timers, timerLatest := multiset{}, map[];
      metrics := Metrics(map[], map[], 0, 0);
      running := true;
    }

    method AddNode(n: NodeId, budgetClass: BudgetClass)
      requires Valid()
      modifies this
      ensures Valid() && View() == SchedulerModel.AddNode(old(View()), n, budgetClass) && running == old(running)
      ensures nodes == old(nodes)[n := Context(budgetClass, 0, 0, 0, None, None)]
      ensures readyFlags == old(readyFlags)[n := false] && unchanged(`components, `readyQueue, `readySet, `timerLatest)
      ensures metrics == old(metrics).(executionsPerNode := old(metrics).executionsPerNode[n := 0],
                                       workUnitsPerNode := old(metrics).workUnitsPerNode[n := 0])
    {
      readyFlags := readyFlags[n := false];
      nodes := nodes[n := NewContext(budgetClass)];
      metrics := metrics.(executionsPerNode := metrics.executionsPerNode[n := 0]);
      metrics := metrics.(workUnitsPerNode := metrics.workUnitsPerNode[n := 0]);
    }

    method AddComponent(component: C, n: NodeId)
      requires Valid()
      modifies this
      ensures Valid() && View() == SchedulerModel.AddComponent(old(View()), n, component) && running == old(running)
      ensures components == old(components)[n := component]
    {
      components := components[n := component];
    }

    method SignalReady(n: NodeId) returns (accepted: bool)
      requires Valid()
      modifies this
      ensures Valid() && View() == SchedulerModel.SignalReady(old(View()), n) && running == old(running)
      ensures accepted <==> n in old(readyFlags)
      ensures !accepted ==> unchanged(this)
      ensures accepted ==>
        && readyFlags == old(readyFlags)[n := true] && readySet == old(readySet) + {n}
        && readyQueue == old(readyQueue) + (if n in old(readySet) then [] else [n])
        && unchanged(`nodes, `components, `timerLatest)
    {
      if n !in readyFlags {
        return false;
      }
      readyFlags := readyFlags[n := true];
      if n !in readySet {
        readySet := readySet + {n};
        readyQueue := readyQueue + [n];
        metrics := metrics.(queueDepth := |readyQueue|);
      }
      return true;
    }

    method WakeAt(n: NodeId, when: Instant) returns (accepted: bool)
      requires Valid()
      modifies this
      ensures Valid() && View() == SchedulerModel.WakeAt(old(View()), n, when) && running == old(running)
      ensures accepted <==> n in old(nodes)
      ensures timerLatest == if accepted then old(timerLatest)[n := when] else old(timerLatest)
    {
      if n !in nodes {
        return false;
      }
      Arm(n, when);
      return true;
    }

    /** The new deadline replaces the old one in the map; its entry joins the heap, the old entry goes stale. */
    method Arm(n: NodeId, when: Instant)
      requires Valid()
      modifies this`timerLatest, this`timers
      ensures Valid() && timerLatest == old(timerLatest)[n := when]
    {
      WitnessedChanges(timers, timerLatest, TimerWake(when, n));
      timerLatest := timerLatest[n := when];
      timers := timers + multiset{TimerWake(when, n)};
    }

    method StopRunning()
      requires Valid()
      modifies this`running
      ensures Valid() && !running
    {
      running := false;
    }

    /**
     Cleans the top of the heap and returns the earliest live deadline: exactly the minimum of the
     map. Only stale entries go; afterwards a live entry is on top.
     */
    method NextValidTimerDeadline() returns (next: Option<Instant>)
      requires Valid()
      modifies this`timers
      ensures Valid() && next == MinDeadline(timerLatest)
      ensures timers <= old(timers)
      ensures forall e: TimerWake :: e.node in timerLatest && timerLatest[e.node] == e.when ==>
        timers[e] == old(timers)[e]
      ensures next.Some? ==> exists e: TimerWake ::
        IsTop(timers, e) && e.when == next.value && e.node in timerLatest && timerLatest[e.node] == e.when
      ensures next.None? ==> timers == multiset{}
    {
      while timers != multiset{}
        invariant Valid() && timers <= old(timers)
        invariant forall e: TimerWake :: e.node in timerLatest && timerLatest[e.node] == e.when ==>
          timers[e] == old(timers)[e]
        decreases |timers|
      {
        TopExists(timers);
        ghost var top :| IsTop(timers, top);
        var peeked: TimerWake :| peeked in timers && forall x :: x in timers && x != peeked ==> Earlier(peeked, x);
        if peeked.node in timerLatest && timerLatest[peeked.node] == peeked.when {
          LiveTopIsFirst(timers, timerLatest, peeked);
          return Some(peeked.when);
        }
        WitnessedChanges(timers, timerLatest, peeked);
        timers := timers - multiset{peeked};
      }
      LiveNeedsEntry(timers, timerLatest);
      return None;
    }

    /** `ready_set.insert` guarding `push_back`. */
    method EnqueueIfAbsent(n: NodeId) returns (added: bool)
      modifies this`readySet, this`readyQueue
      ensures View() == Enqueue(old(View()), n) && (added <==> n !in old(readySet))
    {
      added := n !in readySet;
      if added {
        readySet := readySet + {n};
        readyQueue := readyQueue + [n];
      }
    }

    method MarkFired(n: NodeId, when: Instant)
      modifies this`nodes, this`readyFlags
      ensures View() == old(View()).(
        nodes := if n in old(nodes) then old(nodes)[n := old(nodes)[n].(timerFiredAt := Some(when))] else old(nodes),
        readyFlags := if n in old(readyFlags) then old(readyFlags)[n := true] else old(readyFlags))
    {
      if n in nodes {
        nodes := nodes[n := nodes[n].(timerFiredAt := Some(when))];
      }
      if n in readyFlags {
        readyFlags := readyFlags[n := true];
      }
    }

    /** The body of the draining loop: pops the top entry and, as it is live, fires its node. */
    method FireTop(ghost top: TimerWake)
      requires Valid() && IsTop(timers, top) && top.node in timerLatest && timerLatest[top.node] == top.when
      modifies this`timers, this`timerLatest, this`nodes, this`readyFlags, this`readySet, this`readyQueue
      ensures Valid() && View() == Fire(old(View()), top.node)
    {
      var entry: TimerWake :| entry in timers && forall x :: x in timers && x != entry ==> Earlier(entry, x);
      TopUnique(timers, entry, top);
      WitnessedChanges(timers, timerLatest, entry);
      timers := timers - multiset{entry};
      if entry.node in timerLatest && timerLatest[entry.node] == entry.when {
        timerLatest := timerLatest - {entry.node};
        MarkFired(entry.node, entry.when);
        var _ := EnqueueIfAbsent(entry.node);
      }
    }

    /** The draining loop does to the fields what `Drained` says of the plain map. */
    method DrainExpiredTimers(now: Instant)
      requires Valid()
      modifies this`timers, this`timerLatest, this`nodes, this`readyFlags, this`readySet, this`readyQueue, this`metrics
      ensures Valid() && View() == Drained(old(View()), now)
    {
      FireAllDue(now);
      NothingDue(View(), now);
      metrics := metrics.(queueDepth := |readyQueue|);
    }

    method FireAllDue(now: Instant)
      requires Valid()
      modifies this`timers, this`timerLatest, this`nodes, this`readyFlags, this`readySet, this`readyQueue
      ensures Valid() && Drained(View(), now) == Drained(old(View()), now)
      ensures MinDeadline(timerLatest).None? || MinDeadline(timerLatest).value > now
    {
      while true
        invariant Valid() && Drained(View(), now) == Drained(old(View()), now)
        decreases |timerLatest|
      {
        var next := NextValidTimerDeadline();
        if next.None? || next.value > now {
          break;
        }
        ghost var top :| IsTop(timers, top) && top.when == next.value && top.node in timerLatest
          && timerLatest[top.node] == top.when;
        LiveTopIsFirst(timers, timerLatest, top);
        FireThenDrain(View(), now, top.node);
        FireFields(View(), top.node);
        Shrinks(timerLatest, top.node);
        FireTop(top);
      }
    }

    /** `pop_front` and the look-ups behind it. */
    method TakeNext() returns (job: Popped<C>)
      requires Valid()
      modifies this
      ensures Valid() && (View(), job) == PopFront(old(View())) && running == old(running)
      ensures old(readyQueue) == [] ==> job == Nothing && unchanged(this)
      ensures old(readyQueue) != [] ==>
        var n := old(readyQueue)[0];
        && readyQueue == old(readyQueue)[1..] && readySet == old(readySet) - {n}
        && metrics == old(metrics).(queueDepth := |readyQueue|, loopIterations := old(metrics).loopIterations + 1)
        && (if n in old(components) && n in old(nodes)
            then job == Job(n, old(components)[n], old(nodes)[n])
              && components == old(components) - {n} && nodes == old(nodes) - {n}
            else job == Nothing && components == old(components) && nodes == old(nodes))
    {
      if readyQueue == [] {
        return Nothing;
      }
      var n := readyQueue[0];
      readyQueue := readyQueue[1..];
      readySet := readySet - {n};
      metrics := metrics.(queueDepth := |readyQueue|);
      metrics := metrics.(loopIterations := metrics.loopIterations + 1);
      if n !in components {
        return Nothing;
      }
      var component := components[n];
      components := components - {n};
      if n !in nodes {
        components := components[n := component];
        assert components == old(components);
        return Nothing;
      }
      var context := nodes[n];
      nodes := nodes - {n};
      return Job(n, component, context);
    }

    /** The critical section after a dispatch. */
    method Settle(n: NodeId, component: C, context: Context, outcome: Outcome)
      requires Valid()
      modifies this
      ensures Valid() && View() == Settled(old(View()), n, component, context, outcome)
      ensures running == (old(running) && !(outcome.finished && old(nodes).Keys == {} && old(components).Keys == {}))
      ensures outcome.finished ==>
        && readyFlags == old(readyFlags) - {n} && timerLatest == old(timerLatest) - {n}
        && readySet == old(readySet) - {n} && unchanged(`nodes, `components)
      ensures !outcome.finished ==>
        && nodes == old(nodes)[n := context.(wakeAt := None)] && components == old(components)[n := component]
        && timerLatest ==
           (if context.wakeAt.Some? then old(timerLatest)[n := context.wakeAt.value] else old(timerLatest))
        && var again := outcome.didWork || (n in old(readyFlags) && old(readyFlags)[n]);
        readyQueue == old(readyQueue) + if again && n !in old(readySet) then [n] else []
    {
      CountOutcome(n, outcome);
      if outcome.finished {
        RetireNode(n);
        if nodes.Keys == {} && components.Keys == {} {
          running := false;
        }
      } else {
        PutNodeBack(n, component, context, outcome);
      }
    }

    method CountOutcome(n: NodeId, outcome: Outcome)
      requires Valid()
      modifies this`metrics
      ensures Valid() && View() == Accounted(old(View()), n, outcome)
    {
      if n in metrics.executionsPerNode {
        metrics := metrics.(executionsPerNode :=
          metrics.executionsPerNode[n := metrics.executionsPerNode[n] + outcome.executions]);
      }
      if n in metrics.workUnitsPerNode {
        metrics := metrics.(workUnitsPerNode :=
          metrics.workUnitsPerNode[n := metrics.workUnitsPerNode[n] + outcome.workUnits]);
      }
    }

    method RetireNode(n: NodeId)
      requires Valid()
      modifies this`readyFlags, this`timerLatest, this`readySet, this`readyQueue, this`metrics
      ensures Valid() && View() == Retire(old(View()), n)
    {
      WitnessedChanges(timers, timerLatest, TimerWake(0, n));
      readyFlags := readyFlags - {n};
      timerLatest := timerLatest - {n};
      readySet := readySet - {n};
      readyQueue := Without(readyQueue, n);
      metrics := metrics.(queueDepth := |readyQueue|);
    }

    method PutNodeBack(n: NodeId, component: C, context: Context, outcome: Outcome)
      requires Valid()
      modifies this`nodes, this`components, this`timers, this`timerLatest, this`readySet, this`readyQueue, this`metrics
      ensures Valid() && View() == PutBack(old(View()), n, component, context, outcome)
    {
      var readyFlag := n in readyFlags && readyFlags[n];
      if context.wakeAt.Some? {
        Arm(n, context.wakeAt.value);
      }
      components := components[n := component];
      nodes := nodes[n := context.(wakeAt := None)];
      var shouldRequeue := outcome.didWork || readyFlag;
      if shouldRequeue {
        var added := EnqueueIfAbsent(n);
        if added {
          metrics := metrics.(queueDepth := |readyQueue|);
        }
      }
    }

    /** Other threads at work; the executor does not hold the lock. */
    method Interfere(xs: seq<External>, ghost m: Machine<C>)
      requires Valid() && !m.pc.Committed? && m.state == View() && m.running == running
      modifies this
      ensures Valid() && IsRun(m, LabelsOf(xs))
      ensures var t := After(m, LabelsOf(xs)); t.state == View() && t.running == running && t.pc == m.pc
    {
      ghost var done: seq<Label<C>> := [];
      for i := 0 to |xs|
        invariant Valid() && IsRun(m, done) && done == LabelsOf(xs[..i])
        invariant var t := After(m, done); t.state == View() && t.running == running && t.pc == m.pc
      {
        match xs[i] {
          case DoSignal(n) => var _ := SignalReady(n);
          case DoWake(n, when) => var _ := WakeAt(n, when);
          case DoStop => StopRunning();
        }
        RunSnoc(m, done, LabelOf(xs[i]));
        done := done + [LabelOf(xs[i])];
        assert xs[..i + 1] == xs[..i] + [xs[i]];
      }
      assert xs[..|xs|] == xs;
    }

    /**
     One turn of the main loop: a stretch of the machine's run that starts and ends outside any dispatch.
     Once the due timers have fired, a stopped scheduler exits; one that runs goes home only if the queue
     is empty, and otherwise dispatches the node at the front, and no other, and calls it.
     */
    method TakeTurn(turn: Turn<C>, ghost m: Machine<C>) returns (exited: bool, ghost ls: seq<Label<C>>)
      requires Valid() && Sound(m) && m.pc.Polling? && m.state == View() && m.running == running
      modifies this
      ensures Valid() && TurnTaken(m, turn, exited, ls)
      ensures var t := After(m, ls);
        t.state == View() && t.running == running && t.pc == if exited then Exited else Polling
      ensures var d, t := After(m, Opening(turn)), After(m, ls);
        && (exited <==> !d.running) && m.log <= d.log <= t.log
        && var served := Fairness.NewEvents(d, t);
        if d.running && d.state.readyQueue != []
        then Fairness.Dispatches(served) == [d.state.readyQueue[0]] && Called(d.state.readyQueue[0]) in served
        else served == []
    {
      ls := Open(turn, m);
      if !running {
        RunSnoc(m, ls, Exit);
        exited, ls := true, ls + [Exit];
      } else if readyQueue == [] {
        var deadline := NextValidTimerDeadline();
        exited := false;
      } else {
        ghost var more := TakeJob(turn, After(m, ls));
        RunConcat(m, ls, more);
        exited, ls := false, ls + more;
      }
      TurnServes(m, turn, exited, ls);
    }

    /** The drain, after what other threads did before the executor got the lock. */
    method Open(turn: Turn<C>, ghost m: Machine<C>) returns (ghost ls: seq<Label<C>>)
      requires Valid() && Sound(m) && m.pc.Polling? && m.state == View() && m.running == running
      modifies this
      ensures Valid() && ls == Opening(turn) && IsRun(m, ls)
      ensures var d := After(m, ls); d.state == View() && d.running == running && d.pc == Polling && Sound(d)
    {
      Interfere(turn.before, m);
      ls := LabelsOf(turn.before);
      DrainExpiredTimers(turn.now);
      RunSnoc(m, ls, Drain(turn.now));
      ls := ls + [Drain(turn.now)];
      RunKeepsSound(m, ls);
    }

    /** The rest of the turn, once the executor has seen `running` and a non-empty queue under the lock. */
    method TakeJob(turn: Turn<C>, ghost d: Machine<C>) returns (ghost ls: seq<Label<C>>)
      requires Valid() && Sound(d) && d.pc.Polling? && d.state == View() && d.running == running
      requires running && readyQueue != []
      modifies this
      ensures Valid() && IsRun(d, ls)
      ensures var t := After(d, ls); t.state == View() && t.running == running && t.pc == Polling
      ensures var n := d.state.readyQueue[0];
        && n in d.state.components && n in d.state.nodes
        && ls == PopLabels(turn.stopRace) + JobLabels(turn, d.state.components[n], d.state.nodes[n])
    {
      var job;
      job, ls := PopJob(turn.stopRace, d);
      RunKeepsSound(d, ls);
      ghost var more := RunJob(job, turn, After(d, ls));
      RunConcat(d, ls, more);
      ls := ls + more;
    }

    /** From the check of `running` to the pop; `stop` takes no lock and may come between. */
    method PopJob(stopRace: bool, ghost d: Machine<C>) returns (job: Popped<C>, ghost ls: seq<Label<C>>)
      requires Valid() && Sound(d) && d.pc.Polling? && d.state == View() && d.running == running
      requires running && readyQueue != []
      modifies this
      ensures Valid() && ls == PopLabels(stopRace) && IsRun(d, ls)
      ensures var t := After(d, ls);
        && t.state == View() && t.running == running && job.Job?
        && t.pc == Running(Execution(job.node, job.component, job.context, NO_OUTCOME, Fetched))
      ensures var n := d.state.readyQueue[0];
        && n in d.state.components && n in d.state.nodes
        && job == Job(n, d.state.components[n], d.state.nodes[n])
    {
      RunSnoc(d, [], Commit);
      ls := [Commit];
      assert [] + [Commit] == ls;
      if stopRace {
        StopRunning();
        RunSnoc(d, ls, Stop);
        ls := ls + [Stop];
      }
      PopKeepsStructure(View());
      job := TakeNext();
      RunSnoc(d, ls, Pop);
      ls := ls + [Pop];
    }

    /** The unlocked window and what follows it. A signal can arrive before the flag is cleared. */
    method RunJob(job: Popped<C>, turn: Turn<C>, ghost m: Machine<C>) returns (ghost ls: seq<Label<C>>)
      requires Valid() && job.Job? && Sound(m) && m.state == View() && m.running == running
      requires m.pc == Running(Execution(job.node, job.component, job.context, NO_OUTCOME, Fetched))
      modifies this
      ensures Valid() && IsRun(m, ls) && ls == JobLabels(turn, job.component, job.context)
      ensures var t := After(m, ls); t.state == View() && t.running == running && t.pc == Polling
    {
      ls := InterfereWith(turn.afterPop, m, [], m.pc.job);
      assert ls == LabelsOf(turn.afterPop);
      var x;
      x, ls := ExecuteComponent(job, turn.process, turn.during, m, ls);
      SettleJob(Execution(job.node, x.component, x.context, x.outcome, Done), After(m, ls));
      RunSnoc(m, ls, Label.Settle);
      ls := ls + [Label.Settle];
    }

    /** After the steps `ls` the machine agrees with the fields and is executing `e`. */
    ghost predicate Executing(m: Machine<C>, ls: seq<Label<C>>, e: Execution<C>)
      reads this
    {
      && Valid() && IsRun(m, ls)
      && var t := After(m, ls);
      t.state == View() && t.running == running && t.pc == Running(e)
    }

    /** Other threads at work while a node is out. */
    method InterfereWith(gust: seq<External>, ghost m: Machine<C>, ghost ls: seq<Label<C>>, ghost e: Execution<C>)
      returns (ghost more: seq<Label<C>>)
      requires Executing(m, ls, e)
      modifies this
      ensures Executing(m, more, e) && more == ls + LabelsOf(gust)
    {
      Interfere(gust, After(m, ls));
      RunConcat(m, ls, LabelsOf(gust));
      more := ls + LabelsOf(gust);
    }

    /** The flag goes down. */
    method ClearFlag(n: NodeId, ghost m: Machine<C>, ghost ls: seq<Label<C>>, ghost e: Execution<C>)
      returns (ghost more: seq<Label<C>>)
      requires Executing(m, ls, e) && e.phase.Fetched? && e.node == n
      modifies this`readyFlags
      ensures Executing(m, more, e.(context := Prepared(e.context), phase := Looping)) && more == ls + [Begin]
    {
      if n in readyFlags {
        readyFlags := readyFlags[n := false];
      }
      RunSnoc(m, ls, Begin);
      more := ls + [Begin];
    }

    /** The shared flag as one call leaves it. */
    method FinishCall(n: NodeId, reply: Reply<C>, ghost m: Machine<C>, ghost ls: seq<Label<C>>, ghost e: Execution<C>)
      returns (ghost more: seq<Label<C>>)
      requires Executing(m, ls, e) && e.phase.Looping? && e.node == n
      modifies this`readyFlags
      ensures Executing(m, more, AfterCall(e, reply)) && more == ls + [Call(reply)]
    {
      if n in readyFlags {
        if reply.raised {
          readyFlags := readyFlags[n := true];
        }
        if reply.result.Finished? || reply.result.Panicked? {
          readyFlags := readyFlags[n := false];
        }
        assert readyFlags == FlagAfterCall(old(View()), n, reply).readyFlags;
      }
      RunSnoc(m, ls, Call(reply));
      more := ls + [Call(reply)];
    }

    /** One call is over, and other threads act before the next. */
    method CallOnce(n: NodeId, reply: Reply<C>, gust: seq<External>, ghost m: Machine<C>, ghost ls: seq<Label<C>>,
        ghost e: Execution<C>)
      returns (ghost more: seq<Label<C>>)
      requires Executing(m, ls, e) && e.phase.Looping? && e.node == n
      modifies this
      ensures Executing(m, more, AfterCall(e, reply)) && more == ls + [Call(reply)] + LabelsOf(gust)
    {
      more := FinishCall(n, reply, m, ls, e);
      more := InterfereWith(gust, m, more, AfterCall(e, reply));
    }

    /** One round of the budget loop: the call, its accounting, and whether there may be another. */
    method CallComponent(n: NodeId, process: Behaviour<C>, c0: C, before: Context, o0: Outcome, gust: seq<External>,
        ghost m: Machine<C>, ghost ls: seq<Label<C>>, ghost e0: Execution<C>)
      returns (c: C, ctx: Context, o: Outcome, again: bool, ghost more: seq<Label<C>>, ghost e: Execution<C>)
      requires Executing(m, ls, e0) && e0 == Execution(n, c0, before, o0, Looping)
      modifies this
      ensures Executing(m, more, e) && e == AfterCall(e0, process(c0, before))
      ensures more == ls + [Call(process(c0, before))] + LabelsOf(gust)
      ensures c == e.component && ctx == e.context && o == e.outcome && (again <==> process(c0, before).result.DidWork?)
    {
      var reply := process(c0, before);
      c, ctx, o, again := reply.component, reply.context, o0, false;
      match reply.result {
        case Panicked =>
          o := o.(panicked := true, finished := true);
        case DidWork(units) =>
          ctx, o := Account(before.remainingBudget, ctx, units, o);
          again := true;
        case NoWork =>
        case Finished =>
          o := o.(finished := true);
      }
      more := CallOnce(n, reply, gust, m, ls, e0);
      e := AfterCall(e0, reply);
    }

    /** The flag goes down, and other threads act before the first call. */
    method Start(job: Popped<C>, gust: seq<External>, ghost m: Machine<C>, ghost ls: seq<Label<C>>)
      returns (ghost more: seq<Label<C>>)
      requires job.Job? && Executing(m, ls, Execution(job.node, job.component, job.context, NO_OUTCOME, Fetched))
      modifies this
      ensures more == ls + [Begin] + LabelsOf(gust)
      ensures Executing(m, more, Execution(job.node, job.component, Prepared(job.context), NO_OUTCOME, Looping))
    {
      ghost var e := Execution(job.node, job.component, job.context, NO_OUTCOME, Fetched);
      more := ClearFlag(job.node, m, ls, e);
      more := InterfereWith(gust, m, more, e.(context := Prepared(e.context), phase := Looping));
    }

    /**
     The budget loop: clears the flag, then calls the component until its budget is used up or it stops
     working. It computes the dispatch, and is a stretch of the machine's run.
     */
    method ExecuteComponent(job: Popped<C>, process: Behaviour<C>, during: nat -> seq<External>,
        ghost m: Machine<C>, ghost before: seq<Label<C>>)
      returns (x: Executed<C>, ghost ls: seq<Label<C>>)
      requires job.Job? && Executing(m, before, Execution(job.node, job.component, job.context, NO_OUTCOME, Fetched))
      modifies this
      ensures x == Dispatch(process, job.component, job.context)
      ensures Executing(m, ls, Execution(job.node, x.component, x.context, x.outcome, Done))
      ensures ls == before + DispatchLabels(process, job.component, job.context, during)
    {
      var c := job.component;
      var ctx := job.context.(remainingBudget := Budget(job.context.budgetClass), wakeAt := None);
      var o, calls := Outcome(false, false, 0, 0, false), 0;
      ghost var e := Execution(job.node, c, ctx, o, Looping);
      ghost var y := Dispatch(process, c, job.context);
      ghost var all := before + DispatchLabels(process, c, job.context, during);
      ls := Start(job, during(calls), m, before);
      BudgetLoopBegins(process, during, job.node, c, job.context, before);
      var again := true;
      while again && ctx.remainingBudget > 0
        invariant Executing(m, ls, e) && InBudgetLoop(process, during, y, all, again, e, calls, ls)
        invariant c == e.component && ctx == e.context && o == e.outcome && e.node == job.node
        decreases again, ctx.remainingBudget
      {
        BudgetLoopOn(process, during, y, all, e, calls, ls);
        calls := calls + 1;
        c, ctx, o, again, ls, e := CallComponent(job.node, process, c, ctx, o, during(calls), m, ls, e);
      }
      x := Executed(c, ctx, o);
    }

    /** The critical section after a dispatch is the machine's step. */
    method SettleJob(e: Execution<C>, ghost m: Machine<C>)
      requires Valid() && m.pc == Running(e) && e.phase.Done? && m.state == View() && m.running == running
      modifies this
      ensures Valid() && Legal(m, Label.Settle)
      ensures var t := Next(m, Label.Settle); t.state == View() && t.running == running && t.pc == Polling
    {
      Settle(e.node, e.component, e.context, e.outcome);
    }

    /**
     The main loop, for as many turns as are given: whatever other threads and components do in them,
     it is a run of the machine, so what is proved of the machine's runs holds of it; and it takes every
     turn, until one finds the scheduler stopped.
     */
    method Run(turns: seq<Turn<C>>, ghost m: Machine<C>)
      returns (exited: bool, ghost ls: seq<Label<C>>, ghost parts: seq<seq<Label<C>>>)
      requires Valid() && Sound(m) && m.pc.Polling? && m.state == View() && m.running == running
      modifies this
      ensures Valid() && IsRun(m, ls) && ls == Flat(parts) && TurnsTaken(m, turns, exited, parts)
      ensures var t := After(m, ls);
        t.state == View() && t.running == running && t.pc == if exited then Exited else Polling
    {
      exited, ls, parts := false, [], [];
      for i := 0 to |turns|
        invariant Valid() && !exited && TakenSoFar(m, turns, i, ls, parts)
        invariant var t := After(m, ls); t.state == View() && t.running == running && t.pc == Polling
      {
        RunKeepsSound(m, ls);
        ghost var more;
        exited, more := TakeTurn(turns[i], After(m, ls));
        TakenOn(m, turns, i, ls, parts, exited, more);
        ls, parts := ls + more, parts + [more];
        if exited {
          return;
        }
      }
      assert turns[..|turns|] == turns;
    }
  }

  lemma RunSnoc<C>(m: Machine<C>, ls: seq<Label<C>>, l: Label<C>)
    requires IsRun(m, ls) && Legal(After(m, ls), l)
    ensures IsRun(m, ls + [l]) && After(m, ls + [l]) == Next(After(m, ls), l)
  {
    var t := After(m, ls);
    assert IsRun(t, [l]) && After(t, [l]) == Next(t, l) by {
      assert [l][1..] == [];
      assert IsRun(Next(t, l), []);
    }
    RunConcat(m, ls, [l]);
  }
}
