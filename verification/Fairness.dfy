/**
 Bounded waiting and the metrics: how long a queued node can wait, counted in dispatches and in
 `process` calls, and what the counters mean.
 */
module Fairness {
  import opened Prelude
  import opened ComponentApi
  import opened SchedulerModel
  import opened Machine
  import opened Lifecycle

  // ----- bounded waiting -----

  /** The nodes ahead of n. */
  ghost function Ahead<C>(s: State<C>, n: NodeId): seq<NodeId>
    requires n in s.readyQueue
  {
    s.readyQueue[..IndexOf(s.readyQueue, n)]
  }

  /** The nodes dispatched, in order, and the number of `process` calls made. */
  function Dispatches(log: seq<Event>): seq<NodeId> {
    if log == [] then [] else (if log[0].Dispatched? then [log[0].node] else []) + Dispatches(log[1..])
  }

  function Calls(log: seq<Event>): nat {
    if log == [] then 0 else (if log[0].Called? then 1 else 0) + Calls(log[1..])
  }

  lemma CountsConcat(a: seq<Event>, b: seq<Event>)
    ensures Dispatches(a + b) == Dispatches(a) + Dispatches(b)
    ensures Calls(a + b) == Calls(a) + Calls(b)
  {
    if a == [] {
      assert a + b == b;
    } else {
      assert (a + b)[1..] == a[1..] + b;
      CountsConcat(a[1..], b);
    }
  }

  lemma CountsOfFirings(es: seq<TimerWake>, now: Instant)
    ensures Dispatches(FiredEvents(es, now)) == [] && Calls(FiredEvents(es, now)) == 0
  {
    if es != [] {
      assert FiredEvents(es, now)[1..] == FiredEvents(es[1..], now);
      CountsOfFirings(es[1..], now);
    }
  }

  /** The calls a queued node may still make in its next dispatch. */
  function Allowance<C>(s: State<C>, n: NodeId): (k: nat)
    ensures k <= MAX_BUDGET
  {
    if n in s.nodes then Budget(s.nodes[n].budgetClass) else MAX_BUDGET
  }

  function AllowanceOf<C>(s: State<C>, ns: seq<NodeId>): nat {
    if ns == [] then 0 else Allowance(s, ns[0]) + AllowanceOf(s, ns[1..])
  }

  /** The calls the running dispatch may still make. */
  function JobAllowance<C>(pc: Pc<C>): nat {
    if !pc.Running? then 0
    else match pc.job.phase
      case Fetched => Budget(pc.job.context.budgetClass)
      case Looping => pc.job.context.remainingBudget
      case Done => 0
  }

  /** All the calls that can come before n's own dispatch. */
  ghost function CallsAhead<C>(m: Machine<C>, n: NodeId): nat
    requires n in m.state.readyQueue
  {
    JobAllowance(m.pc) + AllowanceOf(m.state, Ahead(m.state, n))
  }

  lemma AllowanceMonotone<C>(s: State<C>, t: State<C>, ns: seq<NodeId>)
    requires forall k :: k in ns ==> Allowance(t, k) <= Allowance(s, k)
    ensures AllowanceOf(t, ns) <= AllowanceOf(s, ns)
  {
    if ns != [] {
      assert forall k :: k in ns[1..] ==> k in ns;
      AllowanceMonotone(s, t, ns[1..]);
    }
  }

  lemma AllowanceWithout<C>(s: State<C>, a: seq<NodeId>, b: seq<NodeId>)
    requires |b| > 0
    ensures AllowanceOf(s, a + b[1..]) <= AllowanceOf(s, a + b)
  {
    if a == [] {
      assert a + b == b && a + b[1..] == b[1..];
    } else {
      assert (a + b)[1..] == a[1..] + b && (a + b[1..])[1..] == a[1..] + b[1..];
      AllowanceWithout(s, a[1..], b);
    }
  }

  lemma AllowanceBounded<C>(s: State<C>, ns: seq<NodeId>)
    ensures AllowanceOf(s, ns) <= MAX_BUDGET * |ns|
  {
  }

  ghost function NewEvents<C>(m: Machine<C>, t: Machine<C>): seq<Event> {
    if m.log <= t.log then t.log[|m.log|..] else []
  }

  ghost predicate NoClose(log: seq<Event>, n: NodeId) {
    forall i :: 0 <= i < |log| ==> !Closes(log[i], n)
  }

  lemma AheadOfPrefix(q: seq<NodeId>, r: seq<NodeId>, n: NodeId)
    requires q <= r && NoDup(r) && n in q
    ensures n in r && r[..IndexOf(r, n)] == q[..IndexOf(q, n)]
  {
    IndexOfUnique(r, n, IndexOf(q, n));
  }

  /** Retiring x leaves the line in front of n as it was, or takes x out of it. */
  lemma LineWithout(q: seq<NodeId>, x: NodeId, n: NodeId) returns (a: seq<NodeId>, b: seq<NodeId>)
    requires NoDup(q) && n in q && n != x
    ensures n in Without(q, x)
    ensures Without(q, x)[..IndexOf(Without(q, x), n)] == a + b
    ensures q[..IndexOf(q, n)] == a + b || q[..IndexOf(q, n)] == a + [x] + b
  {
    var k := IndexOf(q, n);
    WithoutNoDup(q, x);
    if x !in q {
      WithoutAbsent(q, x);
      a, b := q[..k], [];
    } else {
      var j := IndexOf(q, x);
      WithoutAt(q, x, j);
      if j < k {
        a, b := q[..j], q[j + 1..k];
        LineShortened(Without(q, x), q, j, k);
      } else {
        a, b := q[..k], [];
        LineUntouched(Without(q, x), q, k, j);
      }
    }
  }

  lemma LineShortened(w: seq<NodeId>, q: seq<NodeId>, j: nat, k: nat)
    requires j < k < |q| && w == q[..j] + q[j + 1..] && NoDup(w)
    ensures q[k] in w && w[..IndexOf(w, q[k])] == q[..j] + q[j + 1..k]
    ensures q[..k] == q[..j] + [q[j]] + q[j + 1..k]
  {
    Cut(q, j, k);
    IndexOfUnique(w, q[k], k - 1);
  }

  lemma Cut<T>(q: seq<T>, j: nat, k: nat)
    requires j < k < |q|
    ensures (q[..j] + q[j + 1..])[..k - 1] == q[..j] + q[j + 1..k]
    ensures (q[..j] + q[j + 1..])[k - 1] == q[k]
    ensures q[..k] == q[..j] + [q[j]] + q[j + 1..k]
  {
  }

  lemma LineUntouched(w: seq<NodeId>, q: seq<NodeId>, k: nat, j: nat)
    requires k < j < |q| && w == q[..j] + q[j + 1..] && NoDup(w)
    ensures q[k] in w && w[..IndexOf(w, q[k])] == q[..k]
  {
    IndexOfUnique(w, q[k], k);
    assert w[..k] == q[..k];
  }

  lemma AheadWithout<C>(s: State<C>, q: seq<NodeId>, x: NodeId, n: NodeId)
    requires NoDup(q) && n in q && n != x
    ensures n in Without(q, x)
    ensures var a, b := q[..IndexOf(q, n)], Without(q, x)[..IndexOf(Without(q, x), n)];
      multiset(b) <= multiset(a) && AllowanceOf(s, b) <= AllowanceOf(s, a)
  {
    var a, b := LineWithout(q, x, n);
    if q[..IndexOf(q, n)] == a + [x] + b {
      assert a + [x] + b == a + ([x] + b);
      assert ([x] + b)[1..] == b;
      AllowanceWithout(s, a, [x] + b);
    }
  }

  ghost predicate LineKept<C>(m: Machine<C>, t: Machine<C>, n: NodeId, calls: nat) {
    && n in m.state.readyQueue && n in t.state.readyQueue
    && Ahead(m.state, n) == Ahead(t.state, n)
    && calls + CallsAhead(t, n) <= CallsAhead(m, n)
  }

  /** Steps that at most append to the queue leave the line alone; a call uses up one unit of its job's allowance. */
  lemma LineAppended<C>(m: Machine<C>, l: Label<C>, n: NodeId)
    requires Sound(m) && Legal(m, l) && n in m.state.readyQueue && !l.Pop?
    requires l.Settle? ==> !m.pc.job.outcome.finished
    ensures LineKept(m, Next(m, l), n, if l.Call? then 1 else 0)
  {
    var t := Next(m, l);
    StepKeepsSound(m, l);
    QueueGrows(m, l);
    AheadOfPrefix(m.state.readyQueue, t.state.readyQueue, n);
    AllowancesFall(m, l);
    AllowanceMonotone(m.state, t.state, Ahead(t.state, n));
  }

  lemma QueueGrows<C>(m: Machine<C>, l: Label<C>)
    requires Legal(m, l) && !l.Pop?
    requires l.Settle? ==> !m.pc.job.outcome.finished
    ensures m.state.readyQueue <= Next(m, l).state.readyQueue
  {
  }

  lemma AllowancesFall<C>(m: Machine<C>, l: Label<C>)
    requires Sound(m) && Legal(m, l) && !l.Pop?
    ensures forall k :: Allowance(Next(m, l).state, k) <= Allowance(m.state, k)
    ensures (if l.Call? then 1 else 0) + JobAllowance(Next(m, l).pc) <= JobAllowance(m.pc)
  {
  }

  lemma LinePopped<C>(m: Machine<C>, n: NodeId)
    requires Sound(m) && m.pc.Committed? && n in m.state.readyQueue && n != m.state.readyQueue[0]
    ensures var t := Next(m, Pop); var x := m.state.readyQueue[0];
      && t.log == m.log + [Dispatched(x)] && n in t.state.readyQueue
      && Ahead(m.state, n) == [x] + Ahead(t.state, n)
      && CallsAhead(t, n) <= CallsAhead(m, n)
  {
    var q := m.state.readyQueue;
    PopKeepsStructure(m.state);
    var t := Next(m, Pop);
    assert t.state.readyQueue == q[1..];
    var a := Ahead(t.state, n);
    assert Ahead(m.state, n) == [q[0]] + a;
    assert Ahead(m.state, n)[1..] == a;
    assert q[0] !in a;
    AllowanceMonotone(m.state, t.state, a);
  }

  lemma LineRetired<C>(m: Machine<C>, n: NodeId)
    requires Sound(m) && m.pc.Running? && m.pc.job.phase.Done? && m.pc.job.outcome.finished
    requires n in m.state.readyQueue && n != m.pc.job.node
    ensures var t := Next(m, Settle);
      && n in t.state.readyQueue
      && multiset(Ahead(t.state, n)) <= multiset(Ahead(m.state, n))
      && CallsAhead(t, n) <= CallsAhead(m, n)
  {
    var t := Next(m, Settle);
    AheadWithout(m.state, m.state.readyQueue, m.pc.job.node, n);
    AllowanceMonotone(m.state, t.state, Ahead(t.state, n));
  }

  /** How the line moves over a stretch of a run in which n is neither dispatched nor retired. */
  ghost predicate Waited<C>(m: Machine<C>, t: Machine<C>, n: NodeId)
    requires m.log <= t.log && n in m.state.readyQueue && n in t.state.readyQueue
  {
    var d := NewEvents(m, t);
    && Calls(d) + CallsAhead(t, n) <= CallsAhead(m, n)
    && multiset(Dispatches(d)) + multiset(Ahead(t.state, n)) <= multiset(Ahead(m.state, n))
    && (Dispatches(d) + Ahead(t.state, n) == Ahead(m.state, n) || exists e :: e in d && e.Retired?)
  }

  /** Such a step dispatches nothing, and makes a call only if it is one. */
  lemma AppendedCounts<C>(m: Machine<C>, l: Label<C>)
    requires Sound(m) && Legal(m, l) && !l.Pop? && m.log <= Next(m, l).log
    ensures var d := NewEvents(m, Next(m, l)); Dispatches(d) == [] && Calls(d) == if l.Call? then 1 else 0
  {
    var d := NewEvents(m, Next(m, l));
    if l.Drain? {
      CountsOfFirings(DueInOrder(m.state.timerLatest, l.now), l.now);
    } else if d != [] {
      CountsOfOne(d);
    }
  }

  lemma WaitedStep<C>(m: Machine<C>, l: Label<C>, n: NodeId)
    requires Sound(m) && Legal(m, l) && n in m.state.readyQueue
    requires m.log <= Next(m, l).log && NoClose(NewEvents(m, Next(m, l)), n)
    ensures n in Next(m, l).state.readyQueue && Waited(m, Next(m, l), n)
  {
    var t := Next(m, l);
    var d := NewEvents(m, t);
    if l.Pop? {
      WaitedPop(m, n);
    } else if l.Settle? && m.pc.job.outcome.finished {
      WaitedRetire(m, n);
    } else {
      LineAppended(m, l, n);
      AppendedCounts(m, l);
      assert Dispatches(d) + Ahead(t.state, n) == Ahead(t.state, n);
    }
  }

  lemma WaitedPop<C>(m: Machine<C>, n: NodeId)
    requires Sound(m) && Legal(m, Pop) && n in m.state.readyQueue
    requires m.log <= Next(m, Pop).log && NoClose(NewEvents(m, Next(m, Pop)), n)
    ensures n in Next(m, Pop).state.readyQueue && Waited(m, Next(m, Pop), n)
  {
    var t := Next(m, Pop);
    var d := NewEvents(m, t);
    var x := m.state.readyQueue[0];
    PopKeepsStructure(m.state);
    assert d == [Dispatched(x)];
    assert n != x by { assert !Closes(d[0], n); }
    LinePopped(m, n);
    CountsOfOne(d);
  }

  lemma WaitedRetire<C>(m: Machine<C>, n: NodeId)
    requires Sound(m) && Legal(m, Settle) && m.pc.job.outcome.finished && n in m.state.readyQueue
    requires m.log <= Next(m, Settle).log && NoClose(NewEvents(m, Next(m, Settle)), n)
    ensures n in Next(m, Settle).state.readyQueue && Waited(m, Next(m, Settle), n)
  {
    var d := NewEvents(m, Next(m, Settle));
    assert d == [Retired(m.pc.job.node)];
    assert n != m.pc.job.node by { assert !Closes(d[0], n); }
    LineRetired(m, n);
    CountsOfOne(d);
  }

  lemma CountsOfOne(d: seq<Event>)
    requires |d| == 1
    ensures Dispatches(d) == if d[0].Dispatched? then [d[0].node] else []
    ensures Calls(d) == if d[0].Called? then 1 else 0
  {
    assert d[1..] == [];
  }

  lemma EventsSplit<C>(m: Machine<C>, t: Machine<C>, u: Machine<C>)
    requires m.log <= t.log <= u.log
    ensures NewEvents(m, u) == NewEvents(m, t) + NewEvents(t, u)
  {
    assert u.log == t.log + u.log[|t.log|..] && t.log == m.log + t.log[|m.log|..];
  }

  lemma NoCloseSplit(d: seq<Event>, e: seq<Event>, n: NodeId)
    requires NoClose(d + e, n)
    ensures NoClose(d, n) && NoClose(e, n)
  {
    assert forall i :: 0 <= i < |d| ==> d[i] == (d + e)[i];
    assert forall i :: 0 <= i < |e| ==> e[i] == (d + e)[|d| + i];
  }

  lemma WaitedCompose<C>(m: Machine<C>, t: Machine<C>, u: Machine<C>, n: NodeId)
    requires m.log <= t.log <= u.log
    requires n in m.state.readyQueue && n in t.state.readyQueue && n in u.state.readyQueue
    requires Waited(m, t, n) && Waited(t, u, n)
    ensures Waited(m, u, n)
  {
    var d, e := NewEvents(m, t), NewEvents(t, u);
    EventsSplit(m, t, u);
    CountsConcat(d, e);
    Chain(Dispatches(d), Dispatches(e), Ahead(m.state, n), Ahead(t.state, n), Ahead(u.state, n));
  }

  lemma Chain<T>(d: seq<T>, e: seq<T>, a: seq<T>, b: seq<T>, c: seq<T>)
    requires multiset(d) + multiset(b) <= multiset(a) && multiset(e) + multiset(c) <= multiset(b)
    ensures multiset(d + e) + multiset(c) <= multiset(a)
    ensures d + b == a && e + c == b ==> d + e + c == a
  {
    assert multiset(d + e) == multiset(d) + multiset(e);
    assert d + e + c == d + (e + c);
  }

  lemma {:induction false} WaitedRun<C>(m: Machine<C>, ls: seq<Label<C>>, n: NodeId)
    requires Sound(m) && IsRun(m, ls) && n in m.state.readyQueue
    requires m.log <= After(m, ls).log && NoClose(NewEvents(m, After(m, ls)), n)
    ensures n in After(m, ls).state.readyQueue && Waited(m, After(m, ls), n)
    decreases |ls|
  {
    if ls == [] {
      assert NewEvents(m, m) == [];
      assert [] + Ahead(m.state, n) == Ahead(m.state, n);
    } else {
      var t, u := Next(m, ls[0]), After(m, ls);
      LogGrows(m, ls[0]);
      RunLogGrows(t, ls[1..]);
      EventsSplit(m, t, u);
      NoCloseSplit(NewEvents(m, t), NewEvents(t, u), n);
      WaitedStep(m, ls[0], n);
      StepKeepsSound(m, ls[0]);
      WaitedRun(t, ls[1..], n);
      WaitedCompose(m, t, u, n);
    }
  }

  lemma {:induction false} RunLogGrows<C>(m: Machine<C>, ls: seq<Label<C>>)
    requires IsRun(m, ls)
    ensures m.log <= After(m, ls).log
    decreases |ls|
  {
    if ls != [] {
      LogGrows(m, ls[0]);
      RunLogGrows(Next(m, ls[0]), ls[1..]);
    }
  }

  /**
   Bounded waiting. Let n stand at position k of the ready queue in a reachable state, and let the run
   go on for as long as n is neither dispatched nor retired. Then n stays queued; the nodes dispatched
   meanwhile are different nodes from the k ahead of n; if none of those retired they are served
   exactly in queue order, so n is at the front after exactly k dispatches; and the `process` calls
   made are at most those the running dispatch and the k nodes ahead are entitled to.
   */
  lemma BoundedWaiting<C>(init: Machine<C>, before: seq<Label<C>>, ls: seq<Label<C>>, n: NodeId)
    requires Initial(init) && IsRun(init, before) && IsRun(After(init, before), ls)
    requires n in After(init, before).state.readyQueue
    requires NoClose(NewEvents(After(init, before), After(After(init, before), ls)), n)
    ensures var m := After(init, before); var t := After(m, ls);
      var k := IndexOf(m.state.readyQueue, n); var d := NewEvents(m, t); var served := Dispatches(d);
      && n in t.state.readyQueue
      && |served| + IndexOf(t.state.readyQueue, n) <= k
      && NoDup(served) && (forall x :: x in served ==> x in m.state.readyQueue[..k])
      && ((exists e :: e in d && e.Retired?) || served + Ahead(t.state, n) == m.state.readyQueue[..k])
      && Calls(d) <= JobAllowance(m.pc) + AllowanceOf(m.state, m.state.readyQueue[..k]) <= MAX_BUDGET * (k + 1)
  {
    InitialKept(init);
    RunKeepsSound(init, before);
    RunLogGrows(After(init, before), ls);
    WaitedRun(After(init, before), ls, n);
    WaitedMeans(After(init, before), After(After(init, before), ls), n);
  }

  lemma WaitedMeans<C>(m: Machine<C>, t: Machine<C>, n: NodeId)
    requires Sound(m) && m.log <= t.log && n in m.state.readyQueue && n in t.state.readyQueue && Waited(m, t, n)
    ensures var k := IndexOf(m.state.readyQueue, n); var d := NewEvents(m, t); var served := Dispatches(d);
      && |served| + IndexOf(t.state.readyQueue, n) <= k
      && NoDup(served) && (forall x :: x in served ==> x in m.state.readyQueue[..k])
      && Calls(d) <= JobAllowance(m.pc) + AllowanceOf(m.state, m.state.readyQueue[..k]) <= MAX_BUDGET * (k + 1)
  {
    Distinct(Dispatches(NewEvents(m, t)), Ahead(t.state, n), Ahead(m.state, n));
    AllowanceBounded(m.state, Ahead(m.state, n));
    assert JobAllowance(m.pc) <= MAX_BUDGET;
  }

  lemma Distinct<T>(d: seq<T>, b: seq<T>, a: seq<T>)
    requires NoDup(a) && multiset(d) + multiset(b) <= multiset(a)
    ensures NoDup(d) && |d| + |b| <= |a| && forall x :: x in d ==> x in a
  {
    forall x | x in d ensures x in a {
      assert multiset(d)[x] > 0;
      assert multiset(a)[x] > 0;
    }
    assert multiset(a) == multiset(d) + multiset(b) + (multiset(a) - (multiset(d) + multiset(b)));
    forall i, j | 0 <= i < j < |d| ensures d[i] != d[j] {
      if d[i] == d[j] {
        var x := d[i];
        assert d == d[..i] + [x] + d[i + 1..j] + [x] + d[j + 1..];
        assert multiset(d)[x] >= 2;
        OneEach(a, x);
      }
    }
  }

  lemma OneEach<T>(a: seq<T>, x: T)
    requires NoDup(a)
    ensures multiset(a)[x] <= 1
  {
    if a != [] {
      OneEach(a[1..], x);
      assert a == [a[0]] + a[1..];
      if a[0] == x { assert x !in a[1..]; }
    }
  }

  // ----- metrics -----

  /** A step in which a called component leaves its counters and its budget class alone. */
  predicate Polite<C>(m: Machine<C>, l: Label<C>)
    requires Legal(m, l)
  {
    l.Call? ==>
      var before, after := m.pc.job.context, l.reply.context;
      && after.executionCount == before.executionCount
      && after.workUnitsProcessed == before.workUnitsProcessed
      && after.budgetClass == before.budgetClass
  }

  ghost predicate PoliteRun<C>(m: Machine<C>, ls: seq<Label<C>>)
    requires IsRun(m, ls)
    decreases |ls|
  {
    ls == [] || (Polite(m, ls[0]) && PoliteRun(Next(m, ls[0]), ls[1..]))
  }

  function TimesDispatched(log: seq<Event>, n: NodeId): nat {
    multiset(Dispatches(log))[n]
  }

  /** The share of n's executions that is not yet in the metrics, because its dispatch is still running. */
  function Unsettled<C>(pc: Pc<C>, n: NodeId): Outcome {
    if pc.Running? && pc.job.node == n then pc.job.outcome else NO_OUTCOME
  }

  function ContextOf<C>(m: Machine<C>, n: NodeId): Context
    requires n in m.state.nodes || (m.pc.Running? && m.pc.job.node == n)
  {
    if n in m.state.nodes then m.state.nodes[n] else m.pc.job.context
  }

  ghost predicate NodeCounters<C>(m: Machine<C>, n: NodeId, b: BudgetClass) {
    && n in m.state.metrics.executionsPerNode && n in m.state.metrics.workUnitsPerNode
    && (n in m.state.nodes || n in CheckedOut(m.pc) ==>
      && ContextOf(m, n).budgetClass == b
      && ContextOf(m, n).executionCount == m.state.metrics.executionsPerNode[n] + Unsettled(m.pc, n).executions
      && ContextOf(m, n).workUnitsProcessed == m.state.metrics.workUnitsPerNode[n] + Unsettled(m.pc, n).workUnits)
  }

  ghost predicate CountersAgree<C>(m: Machine<C>, classes: map<NodeId, BudgetClass>) {
    forall n :: n in classes ==> NodeCounters(m, n, classes[n])
  }

  /** What the running dispatch has used of its budget; the whole of it is reserved at the dispatch. */
  ghost predicate JobWithinBudget<C>(m: Machine<C>, classes: map<NodeId, BudgetClass>) {
    m.pc.Running? && m.pc.job.node in classes ==>
      var e := m.pc.job; var b := Budget(classes[e.node]);
      match e.phase
      case Fetched => e.outcome.executions == 0
      case Looping => e.outcome.executions + e.context.remainingBudget <= b
      case Done => e.outcome.executions <= b
  }

  ghost predicate NodeBounded<C>(m: Machine<C>, n: NodeId, b: BudgetClass) {
    && n in m.state.metrics.executionsPerNode
    && m.state.metrics.executionsPerNode[n] + (if n in CheckedOut(m.pc) then Budget(b) else 0)
       <= Budget(b) * TimesDispatched(m.log, n)
  }

  ghost predicate ExecutionsBounded<C>(m: Machine<C>, classes: map<NodeId, BudgetClass>) {
    && m.state.metrics.loopIterations == |Dispatches(m.log)|
    && JobWithinBudget(m, classes)
    && forall n :: n in classes ==> NodeBounded(m, n, classes[n])
  }

  lemma CountersSettle<C>(m: Machine<C>, n: NodeId, b: BudgetClass)
    requires Sound(m) && Legal(m, Settle) && NodeCounters(m, n, b)
    ensures NodeCounters(Next(m, Settle), n, b)
  {
    var e := m.pc.job;
    SettledShape(m.state, e.node, e.component, e.context, e.outcome);
  }

  lemma CountersCall<C>(m: Machine<C>, r: Reply<C>, n: NodeId, b: BudgetClass)
    requires Sound(m) && Legal(m, Call(r)) && Polite(m, Call(r)) && NodeCounters(m, n, b)
    ensures NodeCounters(Next(m, Call(r)), n, b)
  {
  }

  lemma CountersPop<C>(m: Machine<C>, n: NodeId, b: BudgetClass)
    requires Sound(m) && Legal(m, Pop) && NodeCounters(m, n, b)
    ensures NodeCounters(Next(m, Pop), n, b)
  {
    PopKeepsStructure(m.state);
  }

  lemma CountersDrain<C>(m: Machine<C>, now: Instant, n: NodeId, b: BudgetClass)
    requires Sound(m) && Legal(m, Drain(now)) && NodeCounters(m, n, b)
    ensures NodeCounters(Next(m, Drain(now)), n, b)
  {
  }

  lemma CountersStep<C>(m: Machine<C>, l: Label<C>, n: NodeId, b: BudgetClass)
    requires Sound(m) && Legal(m, l) && Polite(m, l) && NodeCounters(m, n, b)
    ensures NodeCounters(Next(m, l), n, b)
  {
    match l
    case Pop => CountersPop(m, n, b);
    case Call(r) => CountersCall(m, r, n, b);
    case Drain(now) => CountersDrain(m, now, n, b);
    case Settle => CountersSettle(m, n, b);
    case _ =>
  }

  lemma DispatchesAppended<C>(m: Machine<C>, l: Label<C>)
    requires Sound(m) && Legal(m, l)
    ensures Dispatches(Next(m, l).log) == Dispatches(m.log) + (if l.Pop? then [m.state.readyQueue[0]] else [])
  {
    var t := Next(m, l);
    LogGrows(m, l);
    var d := NewEvents(m, t);
    assert t.log == m.log + d;
    CountsConcat(m.log, d);
    if l.Drain? {
      CountsOfFirings(DueInOrder(m.state.timerLatest, l.now), l.now);
    } else {
      if l.Pop? { PopKeepsStructure(m.state); }
      if d != [] { CountsOfOne(d); }
    }
  }

  /** Where the published execution counters and the checked-out node change. */
  lemma ExecutionMetric<C>(m: Machine<C>, l: Label<C>)
    requires Sound(m) && Legal(m, l)
    ensures Next(m, l).state.metrics.executionsPerNode ==
      if l.Settle? then Bump(m.state.metrics.executionsPerNode, m.pc.job.node, m.pc.job.outcome.executions)
      else m.state.metrics.executionsPerNode
    ensures CheckedOut(Next(m, l).pc) ==
      if l.Settle? then {} else if l.Pop? then {m.state.readyQueue[0]} else CheckedOut(m.pc)
  {
    match l
    case Pop => PopKeepsStructure(m.state);
    case Settle =>
      var e := m.pc.job;
      SettledShape(m.state, e.node, e.component, e.context, e.outcome);
    case _ =>
  }

  lemma OneMore(a: nat, x: nat)
    ensures a * (x + 1) == a * x + a
  {
  }

  lemma BoundStep<C>(m: Machine<C>, l: Label<C>, n: NodeId, b: BudgetClass)
    requires Sound(m) && Legal(m, l) && NodeBounded(m, n, b)
    requires l.Settle? && m.pc.job.node == n ==> m.pc.job.outcome.executions <= Budget(b)
    ensures NodeBounded(Next(m, l), n, b)
  {
    ExecutionMetric(m, l);
    DispatchCount(m, l, n);
    OneMore(Budget(b), TimesDispatched(m.log, n));
  }

  lemma DispatchCount<C>(m: Machine<C>, l: Label<C>, n: NodeId)
    requires Sound(m) && Legal(m, l)
    ensures TimesDispatched(Next(m, l).log, n) ==
      TimesDispatched(m.log, n) + if l.Pop? && n == m.state.readyQueue[0] then 1 else 0
  {
    DispatchesAppended(m, l);
  }

  lemma JobStep<C>(m: Machine<C>, l: Label<C>, classes: map<NodeId, BudgetClass>)
    requires Sound(m) && Legal(m, l) && CountersAgree(m, classes) && JobWithinBudget(m, classes)
    ensures JobWithinBudget(Next(m, l), classes)
  {
    if l.Pop? { PopKeepsStructure(m.state); }
    if l.Begin? && m.pc.job.node in classes {
      assert NodeCounters(m, m.pc.job.node, classes[m.pc.job.node]);
    }
  }

  lemma {:induction false} CountersRun<C>(m: Machine<C>, ls: seq<Label<C>>, classes: map<NodeId, BudgetClass>)
    requires Sound(m) && IsRun(m, ls) && PoliteRun(m, ls)
    requires CountersAgree(m, classes) && ExecutionsBounded(m, classes)
    ensures CountersAgree(After(m, ls), classes) && ExecutionsBounded(After(m, ls), classes)
    decreases |ls|
  {
    if ls != [] {
      var l, t := ls[0], Next(m, ls[0]);
      StepKeepsSound(m, l);
      forall n | n in classes ensures NodeCounters(t, n, classes[n]) { CountersStep(m, l, n, classes[n]); }
      JobStep(m, l, classes);
      forall n | n in classes ensures NodeBounded(t, n, classes[n]) { BoundStep(m, l, n, classes[n]); }
      IterationsStep(m, l);
      CountersRun(t, ls[1..], classes);
    }
  }

  lemma IterationsStep<C>(m: Machine<C>, l: Label<C>)
    requires Sound(m) && Legal(m, l) && m.state.metrics.loopIterations == |Dispatches(m.log)|
    ensures Next(m, l).state.metrics.loopIterations == |Dispatches(Next(m, l).log)|
  {
    DispatchesAppended(m, l);
    if l.Pop? { PopKeepsStructure(m.state); }
  }

  /** Counters start at zero when nodes are registered. */
  ghost predicate ZeroCounters<C>(s: State<C>) {
    && s.metrics.loopIterations == 0
    && s.metrics.executionsPerNode.Keys == s.metrics.workUnitsPerNode.Keys == s.nodes.Keys
    && forall n :: n in s.nodes ==>
      s.metrics.executionsPerNode[n] == s.nodes[n].executionCount == 0
        && s.metrics.workUnitsPerNode[n] == s.nodes[n].workUnitsProcessed == 0
  }

  /**
   A node keeps its budget class, and the metrics mean what they say: `loop_iterations` counts the
   dispatches; for a node at rest the published counters are those of its context; and no node was executed
   more often than its budget allows for the dispatches it got, in the middle of one just as between two.
   */
  lemma MetricsAgree<C>(m: Machine<C>, ls: seq<Label<C>>, n: NodeId)
    requires Initial(m) && ZeroCounters(m.state) && IsRun(m, ls) && PoliteRun(m, ls) && n in m.state.nodes
    ensures var t := After(m, ls);
      && t.state.metrics.loopIterations == |Dispatches(t.log)|
      && n in t.state.metrics.executionsPerNode && n in t.state.metrics.workUnitsPerNode
      && (n in t.state.nodes || n in CheckedOut(t.pc) ==>
            ContextOf(t, n).budgetClass == m.state.nodes[n].budgetClass)
      && (n in t.state.nodes ==>
            t.state.nodes[n].executionCount == t.state.metrics.executionsPerNode[n] &&
            t.state.nodes[n].workUnitsProcessed == t.state.metrics.workUnitsPerNode[n])
      && t.state.metrics.executionsPerNode[n] + Unsettled(t.pc, n).executions
         <= Budget(m.state.nodes[n].budgetClass) * TimesDispatched(t.log, n)
  {
    var classes := map k | k in m.state.nodes :: m.state.nodes[k].budgetClass;
    InitialKept(m);
    CountersRun(m, ls, classes);
    RunKeepsSound(m, ls);
    assert NodeCounters(After(m, ls), n, classes[n]) && NodeBounded(After(m, ls), n, classes[n]);
  }
}
