/**
 The scheduler's locked state and what each critical section does to it.

 The deadlines are kept here as the plain map `timerLatest`; the heap with its stale entries
 belongs to the class in Scheduler.dfy, which is proved to behave as this map does.
 */
module SchedulerModel {
  import opened Prelude
  import opened ComponentApi

  datatype Metrics = Metrics(
    executionsPerNode: map<NodeId, nat>,
    workUnitsPerNode: map<NodeId, nat>,
    queueDepth: nat,
    loopIterations: nat)

  datatype State<C> = State(
    nodes: map<NodeId, Context>,
    components: map<NodeId, C>,
    readyFlags: map<NodeId, bool>,
    readyQueue: seq<NodeId>,
    readySet: set<NodeId>,
    timerLatest: map<NodeId, Instant>,
    metrics: Metrics)

  datatype Outcome = Outcome(didWork: bool, finished: bool, executions: nat, workUnits: nat, panicked: bool)

  const NO_OUTCOME := Outcome(false, false, 0, 0, false)

  datatype TimerWake = TimerWake(when: Instant, node: NodeId)

  /** The heap's order: the earlier deadline first, and the greater name first among equal deadlines. */
  predicate Earlier(a: TimerWake, b: TimerWake) {
    a.when < b.when || (a.when == b.when && Less(b.node, a.node))
  }

  lemma EarlierIsStrictOrder(a: TimerWake, b: TimerWake, c: TimerWake)
    ensures !Earlier(a, a)
    ensures Earlier(a, b) || Earlier(b, a) || a == b
    ensures Earlier(a, b) && Earlier(b, c) ==> Earlier(a, c)
  {
    LessIrreflexive(a.node);
    LessTotal(a.node, b.node);
    if Earlier(a, b) && Earlier(b, c) && a.when == b.when == c.when {
      LessTransitive(c.node, b.node, a.node);
    }
  }

  function EmptyState<C>(): State<C> {
    State(map[], map[], map[], [], {}, map[], Metrics(map[], map[], 0, 0))
  }

  /** `ready_set.insert(n)` guarding `ready_queue.push_back(n)`. */
  function Enqueue<C>(s: State<C>, n: NodeId): State<C> {
    if n in s.readySet then s
    else s.(readySet := s.readySet + {n}, readyQueue := s.readyQueue + [n])
  }

  function SyncDepth<C>(s: State<C>): State<C> {
    s.(metrics := s.metrics.(queueDepth := |s.readyQueue|))
  }

  function AddNode<C>(s: State<C>, n: NodeId, b: BudgetClass): State<C> {
    s.(readyFlags := s.readyFlags[n := false],
       nodes := s.nodes[n := NewContext(b)],
       metrics := s.metrics.(
         executionsPerNode := s.metrics.executionsPerNode[n := 0],
         workUnitsPerNode := s.metrics.workUnitsPerNode[n := 0]))
  }

  function AddComponent<C>(s: State<C>, n: NodeId, c: C): State<C> {
    s.(components := s.components[n := c])
  }

  function SignalReady<C>(s: State<C>, n: NodeId): State<C> {
    if n !in s.readyFlags then s
    else
      var s1 := s.(readyFlags := s.readyFlags[n := true]);
      if n in s.readySet then s1 else SyncDepth(Enqueue(s1, n))
  }

  function WakeAt<C>(s: State<C>, n: NodeId, when: Instant): State<C> {
    if n !in s.nodes then s else s.(timerLatest := s.timerLatest[n := when])
  }

  /** The first deadline of the map in the heap's order. */
  ghost predicate IsFirst(latest: map<NodeId, Instant>, n: NodeId) {
    n in latest && forall k :: k in latest && k != n ==> Earlier(TimerWake(latest[n], n), TimerWake(latest[k], k))
  }

  lemma FirstExists(latest: map<NodeId, Instant>)
    requires latest.Keys != {}
    ensures exists n :: IsFirst(latest, n)
    decreases |latest|
  {
    var k :| k in latest;
    var rest := latest - {k};
    if rest.Keys == {} {
      assert forall j :: j in latest ==> j == k || j in rest;
      assert IsFirst(latest, k);
    } else {
      assert |rest| < |latest| by { assert rest.Keys == latest.Keys - {k}; }
      FirstExists(rest);
      var n :| IsFirst(rest, n);
      var a, b := TimerWake(latest[n], n), TimerWake(latest[k], k);
      var first := if Earlier(a, b) then n else k;
      forall j | j in latest && j != first
        ensures Earlier(TimerWake(latest[first], first), TimerWake(latest[j], j))
      {
        EarlierIsStrictOrder(a, b, b);
        EarlierIsStrictOrder(b, a, TimerWake(latest[j], j));
        if j != k && j != n {
          assert j in rest && Earlier(a, TimerWake(rest[j], j));
        }
      }
      assert IsFirst(latest, first);
    }
  }

  lemma FirstUnique(latest: map<NodeId, Instant>, n: NodeId, k: NodeId)
    requires IsFirst(latest, n) && IsFirst(latest, k)
    ensures n == k
  {
    if n != k {
      EarlierIsStrictOrder(TimerWake(latest[n], n), TimerWake(latest[k], k), TimerWake(latest[n], n));
    }
  }

  ghost function First(latest: map<NodeId, Instant>): (n: NodeId)
    requires latest.Keys != {}
    ensures IsFirst(latest, n)
  {
    FirstExists(latest);
    var n :| IsFirst(latest, n);
    n
  }

  /** The minimum of the map: None exactly when there is no live deadline. */
  ghost function MinDeadline(latest: map<NodeId, Instant>): Option<Instant> {
    if latest.Keys == {} then None else Some(latest[First(latest)])
  }

  ghost function Due(latest: map<NodeId, Instant>, now: Instant): set<NodeId> {
    set n | n in latest && latest[n] <= now
  }

  /** The due deadlines in the order in which the heap releases them. */
  ghost function DueInOrder(latest: map<NodeId, Instant>, now: Instant): seq<TimerWake>
    decreases |latest|
  {
    if latest.Keys == {} || latest[First(latest)] > now then []
    else
      var n := First(latest);
      assert (latest - {n}).Keys == latest.Keys - {n};
      [TimerWake(latest[n], n)] + DueInOrder(latest - {n}, now)
  }

  /** The nodes of `es`, in order, that are not already in `ready`. */
  function NewNodes(es: seq<TimerWake>, ready: set<NodeId>): seq<NodeId> {
    if es == [] then []
    else (if es[0].node in ready then [] else [es[0].node]) + NewNodes(es[1..], ready)
  }

  ghost function Stamped(nodes: map<NodeId, Context>, latest: map<NodeId, Instant>, due: set<NodeId>)
    : map<NodeId, Context>
    requires due <= latest.Keys
  {
    map k | k in nodes :: if k in due then nodes[k].(timerFiredAt := Some(latest[k])) else nodes[k]
  }

  ghost function Raised(flags: map<NodeId, bool>, due: set<NodeId>): map<NodeId, bool> {
    map k | k in flags :: flags[k] || k in due
  }

  /** What draining at time `now` has to achieve, said of the plain map. */
  ghost function Drained<C>(s: State<C>, now: Instant): State<C> {
    var due := Due(s.timerLatest, now);
    SyncDepth(s.(
      timerLatest := s.timerLatest - due,
      nodes := Stamped(s.nodes, s.timerLatest, due),
      readyFlags := Raised(s.readyFlags, due),
      readySet := s.readySet + due,
      readyQueue := s.readyQueue + NewNodes(DueInOrder(s.timerLatest, now), s.readySet)))
  }

  /** One firing, as the body of the draining loop performs it. */
  function Fire<C>(s: State<C>, n: NodeId): State<C>
    requires n in s.timerLatest
  {
    var when := s.timerLatest[n];
    var s1 := s.(timerLatest := s.timerLatest - {n});
    var s2 := if n in s1.nodes then s1.(nodes := s1.nodes[n := s1.nodes[n].(timerFiredAt := Some(when))]) else s1;
    var s3 := if n in s2.readyFlags then s2.(readyFlags := s2.readyFlags[n := true]) else s2;
    Enqueue(s3, n)
  }

  lemma DueMembers(latest: map<NodeId, Instant>, now: Instant)
    ensures forall e :: e in DueInOrder(latest, now) <==> e.node in Due(latest, now) && e.when == latest[e.node]
    decreases |latest|
  {
    if latest.Keys == {} {
    } else if latest[First(latest)] > now {
      assert Due(latest, now) == {};
    } else {
      var n := First(latest);
      var rest := latest - {n};
      assert rest.Keys == latest.Keys - {n};
      DueMembers(rest, now);
      assert Due(latest, now) == Due(rest, now) + {n};
    }
  }

  /** The firing order: strictly ascending in the heap's order, and exactly the due deadlines. */
  lemma DueOrder(latest: map<NodeId, Instant>, now: Instant)
    ensures forall e :: e in DueInOrder(latest, now) <==> e.node in latest && e.when == latest[e.node] && e.when <= now
    ensures forall i, j :: 0 <= i < j < |DueInOrder(latest, now)| ==>
      Earlier(DueInOrder(latest, now)[i], DueInOrder(latest, now)[j])
    decreases |latest|
  {
    DueMembers(latest, now);
    var es := DueInOrder(latest, now);
    if es != [] {
      var n := First(latest);
      var rest := latest - {n};
      assert rest.Keys == latest.Keys - {n};
      DueOrder(rest, now);
      forall j | 0 < j < |es| ensures Earlier(es[0], es[j]) {
        assert es[j] == DueInOrder(rest, now)[j - 1];
        assert es[j] in DueInOrder(rest, now);
        assert es[j].node in rest && es[j].node != n;
      }
    }
  }

  lemma FireDue(latest: map<NodeId, Instant>, now: Instant, n: NodeId)
    requires n in latest && latest[n] <= now
    ensures Due(latest, now) == Due(latest - {n}, now) + {n}
    ensures latest - Due(latest, now) == latest - {n} - Due(latest - {n}, now)
  {
  }

  lemma FireFields<C>(s: State<C>, n: NodeId)
    requires n in s.timerLatest
    ensures var t := Fire(s, n);
      && t.timerLatest == s.timerLatest - {n}
      && t.components == s.components && t.metrics == s.metrics
      && t.readySet == s.readySet + {n}
      && t.readyQueue == s.readyQueue + (if n in s.readySet then [] else [n])
      && t.nodes ==
         (if n in s.nodes then s.nodes[n := s.nodes[n].(timerFiredAt := Some(s.timerLatest[n]))] else s.nodes)
      && t.readyFlags == (if n in s.readyFlags then s.readyFlags[n := true] else s.readyFlags)
  {
    if n in s.readySet {
      assert s.readySet + {n} == s.readySet;
      assert s.readyQueue + [] == s.readyQueue;
    }
  }

  /** Firing the first due deadline leaves the rest of the drain unchanged. */
  lemma FireThenDrain<C>(s: State<C>, now: Instant, n: NodeId)
    requires IsFirst(s.timerLatest, n) && s.timerLatest[n] <= now
    ensures Drained(Fire(s, n), now) == Drained(s, now)
  {
    FireFields(s, n);
    var latest := s.timerLatest;
    var rest := latest - {n};
    var due := Due(rest, now);
    FireDue(latest, now, n);
    FireContexts(s.nodes, latest, now, n);
    FireFlags(s.readyFlags, due, n);
    FireQueue(s.readySet, latest, now, n);
    var q1 := if n in s.readySet then [] else [n];
    var q2 := NewNodes(DueInOrder(rest, now), s.readySet + {n});
    Regroup(s.readyQueue, q1, q2, s.readySet, due, n);
  }

  lemma Regroup(a: seq<NodeId>, b: seq<NodeId>, c: seq<NodeId>, x: set<NodeId>, y: set<NodeId>, n: NodeId)
    ensures a + b + c == a + (b + c)
    ensures x + {n} + y == x + (y + {n})
  {
  }

  lemma FireQueue(ready: set<NodeId>, latest: map<NodeId, Instant>, now: Instant, n: NodeId)
    requires IsFirst(latest, n) && latest[n] <= now
    ensures NewNodes(DueInOrder(latest, now), ready)
         == (if n in ready then [] else [n]) + NewNodes(DueInOrder(latest - {n}, now), ready + {n})
  {
    FirstUnique(latest, n, First(latest));
    DueMembers(latest - {n}, now);
    NewNodesIgnores(DueInOrder(latest - {n}, now), ready, n);
    assert (latest - {n}).Keys == latest.Keys - {n};
    var es := DueInOrder(latest, now);
    assert es == [TimerWake(latest[n], n)] + DueInOrder(latest - {n}, now);
    assert es[1..] == DueInOrder(latest - {n}, now);
  }

  lemma FireContexts(nodes: map<NodeId, Context>, latest: map<NodeId, Instant>, now: Instant, n: NodeId)
    requires n in latest && latest[n] <= now
    ensures Stamped(nodes, latest, Due(latest, now))
         == Stamped(if n in nodes then nodes[n := nodes[n].(timerFiredAt := Some(latest[n]))] else nodes,
                    latest - {n}, Due(latest - {n}, now))
  {
  }

  lemma FireFlags(flags: map<NodeId, bool>, rest: set<NodeId>, n: NodeId)
    ensures Raised(flags, rest + {n}) == Raised(if n in flags then flags[n := true] else flags, rest)
  {
  }

  lemma NewNodesIgnores(es: seq<TimerWake>, ready: set<NodeId>, n: NodeId)
    requires forall e :: e in es ==> e.node != n
    ensures NewNodes(es, ready + {n}) == NewNodes(es, ready)
  {
    if es != [] {
      assert es[0] in es;
      assert forall e :: e in es[1..] ==> e in es;
      NewNodesIgnores(es[1..], ready, n);
    }
  }

  lemma NothingDue<C>(s: State<C>, now: Instant)
    requires MinDeadline(s.timerLatest).None? || MinDeadline(s.timerLatest).value > now
    ensures Drained(s, now) == SyncDepth(s)
  {
    DueMembers(s.timerLatest, now);
    assert DueInOrder(s.timerLatest, now) == [];
    assert Due(s.timerLatest, now) == {} by {
      forall n | n in s.timerLatest ensures s.timerLatest[n] > now {
        assert IsFirst(s.timerLatest, First(s.timerLatest));
      }
    }
    var d := Drained(s, now);
    assert d.timerLatest == s.timerLatest;
    assert d.nodes == s.nodes;
    assert d.readyFlags == s.readyFlags;
    assert d.readySet == s.readySet;
  }

  /** `pop_front` and the two look-ups behind it, with the branches for a missing component or context. */
  datatype Popped<C> = Nothing | Job(node: NodeId, component: C, context: Context)

  function PopFront<C>(s: State<C>): (State<C>, Popped<C>) {
    if s.readyQueue == [] then (s, Nothing)
    else
      var n := s.readyQueue[0];
      var s1 := s.(
        readyQueue := s.readyQueue[1..],
        readySet := s.readySet - {n},
        metrics := s.metrics.(queueDepth := |s.readyQueue| - 1, loopIterations := s.metrics.loopIterations + 1));
      if n !in s1.components then (s1, Nothing)
      else if n !in s1.nodes then (s1, Nothing)
      else (s1.(components := s1.components - {n}, nodes := s1.nodes - {n}), Job(n, s1.components[n], s1.nodes[n]))
  }

  function Bump(m: map<NodeId, nat>, n: NodeId, amount: nat): map<NodeId, nat> {
    if n in m then m[n := m[n] + amount] else m
  }

  function Accounted<C>(s: State<C>, n: NodeId, o: Outcome): State<C> {
    s.(metrics := s.metrics.(
         executionsPerNode := Bump(s.metrics.executionsPerNode, n, o.executions),
         workUnitsPerNode := Bump(s.metrics.workUnitsPerNode, n, o.workUnits)))
  }

  function Retire<C>(s: State<C>, n: NodeId): State<C> {
    SyncDepth(s.(
      readyFlags := s.readyFlags - {n},
      timerLatest := s.timerLatest - {n},
      readySet := s.readySet - {n},
      readyQueue := Without(s.readyQueue, n)))
  }

  function FlagOf<C>(s: State<C>, n: NodeId): bool {
    n in s.readyFlags && s.readyFlags[n]
  }

  function PutBack<C>(s: State<C>, n: NodeId, c: C, ctx: Context, o: Outcome): State<C> {
    var s1 := if ctx.wakeAt.Some? then s.(timerLatest := s.timerLatest[n := ctx.wakeAt.value]) else s;
    var s2 := s1.(components := s1.components[n := c], nodes := s1.nodes[n := ctx.(wakeAt := None)]);
    if (o.didWork || FlagOf(s, n)) && n !in s2.readySet then SyncDepth(Enqueue(s2, n)) else s2
  }

  /** The critical section after a dispatch. */
  function Settled<C>(s: State<C>, n: NodeId, c: C, ctx: Context, o: Outcome): State<C> {
    var s1 := Accounted(s, n, o);
    if o.finished then Retire(s1, n) else PutBack(s1, n, c, ctx, o)
  }

  lemma PutBackShape<C>(s: State<C>, n: NodeId, c: C, ctx: Context, o: Outcome)
    ensures var t := PutBack(s, n, c, ctx, o);
      && t.metrics.executionsPerNode == s.metrics.executionsPerNode
      && t.metrics.workUnitsPerNode == s.metrics.workUnitsPerNode
      && t.metrics.loopIterations == s.metrics.loopIterations
      && t.nodes == s.nodes[n := ctx.(wakeAt := None)] && t.components == s.components[n := c]
  {
  }

  lemma SettledShape<C>(s: State<C>, n: NodeId, c: C, ctx: Context, o: Outcome)
    ensures var t := Settled(s, n, c, ctx, o);
      && t.metrics.executionsPerNode == Bump(s.metrics.executionsPerNode, n, o.executions)
      && t.metrics.workUnitsPerNode == Bump(s.metrics.workUnitsPerNode, n, o.workUnits)
      && t.metrics.loopIterations == s.metrics.loopIterations
      && t.nodes == (if o.finished then s.nodes else s.nodes[n := ctx.(wakeAt := None)])
      && t.components == (if o.finished then s.components else s.components[n := c])
  {
    PutBackShape(Accounted(s, n, o), n, c, ctx, o);
  }

  /** Whether the dispatch just settled was the last one: every node has finished. */
  predicate LastOneOut<C>(s: State<C>, o: Outcome) {
    o.finished && s.nodes.Keys == {} && s.components.Keys == {}
  }

  /**
   What one `process` call leaves behind: the component, whatever it made of its context, its
   report, and whether it raised its own ready flag on the way.
   */
  datatype Reply<C> = Reply(component: C, context: Context, result: CallResult, raised: bool)

  function Min(a: nat, b: nat): nat { if a <= b then a else b }
  function Max(a: nat, b: nat): nat { if a <= b then b else a }
  function SatSub(a: nat, b: nat): nat { if a <= b then 0 else a - b }

  /** Accounting of `DidWork(units)`: the component's own idea of the budget is only allowed to lower it. */
  function Charge(before: nat, after: Context, units: nat): Context {
    var accounted := Max(units, 1);
    var consumed := Max(SatSub(before, Min(after.remainingBudget, before)), accounted);
    after.(
      remainingBudget := SatSub(before, consumed),
      workUnitsProcessed := after.workUnitsProcessed + accounted,
      executionCount := after.executionCount + 1)
  }

  function AddWork(o: Outcome, units: nat): Outcome {
    o.(didWork := true, executions := o.executions + 1, workUnits := o.workUnits + Max(units, 1))
  }

  function Prepared(ctx: Context): Context {
    ctx.(remainingBudget := Budget(ctx.budgetClass), wakeAt := None)
  }
}
