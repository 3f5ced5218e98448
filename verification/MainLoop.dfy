/**
 What one turn of the main loop consists of, step by step, and what that means for the nodes in the
 queue. The surroundings of a turn are a parameter of it.
 */
module MainLoop {
  import opened Prelude
  import opened ComponentApi
  import opened SchedulerModel
  import opened Machine
  import opened Lifecycle
  import opened BudgetLoop
  import opened Fairness

  /** What other threads can do. */
  datatype External = DoSignal(node: NodeId) | DoWake(node: NodeId, when: Instant) | DoStop

  function LabelOf<C>(x: External): Label<C> {
    match x
    case DoSignal(n) => Signal(n)
    case DoWake(n, when) => Wake(n, when)
    case DoStop => Stop
  }

  function LabelsOf<C>(xs: seq<External>): seq<Label<C>> {
    seq(|xs|, i requires 0 <= i < |xs| => LabelOf(xs[i]))
  }

  /**
   What one turn of the main loop meets: the actions of other threads before it gets the lock, the
   clock it reads, whether `stop` hits between its check of `running` and the pop, the actions of other
   threads once it has released the lock but not yet cleared the flag, the behaviour of the component
   it fetched, and the actions of other threads before its first call and after each.
   */
  datatype Turn<!C> = Turn(
    before: seq<External>,
    now: Instant,
    stopRace: bool,
    afterPop: seq<External>,
    process: Behaviour<C>,
    during: nat -> seq<External>)

  // ----- the steps of a turn -----

  /** The calls that come after the k-th, each followed by what other threads do. */
  function CallLabels<C>(process: Behaviour<C>, c: C, ctx: Context, during: nat -> seq<External>, k: nat)
    : seq<Label<C>>
    decreases ctx.remainingBudget
  {
    if ctx.remainingBudget == 0 then []
    else
      var r := process(c, ctx);
      [Call(r)] + LabelsOf(during(k + 1)) +
      (match r.result
       case DidWork(units) =>
         CallLabels(process, r.component, Charge(ctx.remainingBudget, r.context, units), during, k + 1)
       case _ => [])
  }

  /** The first of the calls, and the rest. */
  lemma CallLabelsNext<C>(ls: seq<Label<C>>, process: Behaviour<C>, c: C, ctx: Context, during: nat -> seq<External>,
                          k: nat)
    requires ctx.remainingBudget > 0
    ensures var r := process(c, ctx);
      ls + CallLabels(process, c, ctx, during, k) == ls + [Call(r)] + LabelsOf(during(k + 1)) +
        if r.result.DidWork?
        then CallLabels(process, r.component, Charge(ctx.remainingBudget, r.context, r.result.units), during, k + 1)
        else []
  {
  }

  /** A dispatch, from the clearing of the flag to the end of the budget loop. */
  function DispatchLabels<C>(process: Behaviour<C>, c: C, ctx: Context, during: nat -> seq<External>): seq<Label<C>> {
    [Begin] + LabelsOf(during(0)) + CallLabels(process, c, Prepared(ctx), during, 0)
  }

  /**
   The budget loop at its head, on the way to `x` and `all`: with calls still to come, or left by a call
   that did no work.
   */
  ghost predicate InBudgetLoop<C>(process: Behaviour<C>, during: nat -> seq<External>, x: Executed<C>,
      all: seq<Label<C>>, again: bool, e: Execution<C>, k: nat, ls: seq<Label<C>>) {
    if again then
      && e.phase == (if e.context.remainingBudget == 0 then Done else Looping)
      && Loop(process, e.component, e.context, e.outcome) == x
      && ls + CallLabels(process, e.component, e.context, during, k) == all
    else
      e.phase.Done? && Executed(e.component, e.context, e.outcome) == x && ls == all
  }

  lemma BudgetLoopBegins<C>(process: Behaviour<C>, during: nat -> seq<External>, n: NodeId, c: C, ctx: Context,
                            before: seq<Label<C>>)
    ensures InBudgetLoop(process, during, Dispatch(process, c, ctx), before + DispatchLabels(process, c, ctx, during),
      true, Execution(n, c, Prepared(ctx), NO_OUTCOME, Looping), 0, before + [Begin] + LabelsOf(during(0)))
  {
    var a, b, d := [Label<C>.Begin], LabelsOf<C>(during(0)), CallLabels(process, c, Prepared(ctx), during, 0);
    assert before + (a + b + d) == before + a + b + d;
  }

  lemma BudgetLoopOn<C>(process: Behaviour<C>, during: nat -> seq<External>, x: Executed<C>, all: seq<Label<C>>,
                        e: Execution<C>, k: nat, ls: seq<Label<C>>)
    requires InBudgetLoop(process, during, x, all, true, e, k, ls) && e.context.remainingBudget > 0
    ensures var r := process(e.component, e.context); var e1 := AfterCall(e, r);
      && InBudgetLoop(process, during, x, all, r.result.DidWork?, e1, k + 1,
                      ls + [Call(r)] + LabelsOf(during(k + 1)))
      && (r.result.DidWork? ==> e1.context.remainingBudget < e.context.remainingBudget)
  {
    CallLabelsNext(ls, process, e.component, e.context, during, k);
  }

  /** What follows a pop of this job. */
  function JobLabels<C>(turn: Turn<C>, c: C, ctx: Context): seq<Label<C>> {
    LabelsOf(turn.afterPop) + DispatchLabels(turn.process, c, ctx, turn.during) + [Settle]
  }

  /** From the check of `running` to the pop. */
  function PopLabels<C>(stopRace: bool): seq<Label<C>> {
    [Commit] + (if stopRace then [Stop] else []) + [Pop]
  }

  function Opening<C>(turn: Turn<C>): seq<Label<C>> {
    LabelsOf(turn.before) + [Drain(turn.now)]
  }

  /**
   A turn: other threads, then the drain; then it exits if the scheduler has stopped, goes home if the
   queue is empty, and otherwise dispatches the node at the front of the queue and settles it.
   */
  ghost predicate TurnTaken<C>(m: Machine<C>, turn: Turn<C>, exited: bool, ls: seq<Label<C>>) {
    && IsRun(m, Opening(turn)) && IsRun(m, ls)
    && var d := After(m, Opening(turn));
    && (exited <==> !d.running)
    && if !d.running then ls == Opening(turn) + [Exit]
       else if d.state.readyQueue == [] then ls == Opening(turn)
       else
         var n := d.state.readyQueue[0];
         && n in d.state.components && n in d.state.nodes
         && ls == Opening(turn) + (PopLabels(turn.stopRace) + JobLabels(turn, d.state.components[n], d.state.nodes[n]))
  }

  /** Turn after turn: each part is what one turn did, and only the last can have exited. */
  ghost predicate TurnsTaken<C>(m: Machine<C>, turns: seq<Turn<C>>, exited: bool, parts: seq<seq<Label<C>>>)
    decreases |parts|
  {
    if parts == [] then turns == [] && !exited
    else
      && turns != []
      && TurnTaken(m, turns[0], exited && |parts| == 1, parts[0])
      && if exited && |parts| == 1 then true else TurnsTaken(After(m, parts[0]), turns[1..], exited, parts[1..])
  }

  function Flat<T>(parts: seq<seq<T>>): seq<T> {
    if parts == [] then [] else parts[0] + Flat(parts[1..])
  }

  // ----- what a dispatch leaves in the log -----

  /** The steps that can follow a pop until the next drain. */
  predicate AfterPop<C>(l: Label<C>) {
    l.Signal? || l.Wake? || l.Stop? || l.Begin? || l.Call? || l.Settle?
  }

  ghost predicate AllAfterPop<C>(ls: seq<Label<C>>) {
    forall i :: 0 <= i < |ls| ==> AfterPop(ls[i])
  }

  lemma CallLabelsAfterPop<C>(process: Behaviour<C>, c: C, ctx: Context, during: nat -> seq<External>, k: nat)
    ensures AllAfterPop(CallLabels(process, c, ctx, during, k))
    ensures ctx.remainingBudget > 0 ==>
      CallLabels(process, c, ctx, during, k) != [] && CallLabels(process, c, ctx, during, k)[0].Call?
    decreases ctx.remainingBudget
  {
    if ctx.remainingBudget > 0 {
      var r := process(c, ctx);
      if r.result.DidWork? {
        CallLabelsAfterPop(process, r.component, Charge(ctx.remainingBudget, r.context, r.result.units), during, k + 1);
      }
    }
  }

  /** What such steps log: nothing is dispatched, and only the node that is out retires or is called. */
  ghost predicate OnlyOf(d: seq<Event>, n: NodeId) {
    forall i :: 0 <= i < |d| ==> !d[i].Dispatched? && (d[i].Retired? || d[i].Called? ==> d[i].node == n)
  }

  predicate OutOrBack<C>(pc: Pc<C>, n: NodeId) {
    pc.Polling? || (pc.Running? && pc.job.node == n)
  }

  lemma StepOnlyOf<C>(m: Machine<C>, l: Label<C>, n: NodeId)
    requires Legal(m, l) && AfterPop(l) && OutOrBack(m.pc, n)
    ensures OnlyOf(NewEvents(m, Next(m, l)), n)
    ensures OutOrBack(Next(m, l).pc, n)
    ensures l.Call? ==> Called(n) in NewEvents(m, Next(m, l))
  {
    var d := NewEvents(m, Next(m, l));
    if l.Call? {
      assert d == [Called(n)];
    }
  }

  lemma {:induction false} RunOnlyOf<C>(m: Machine<C>, ls: seq<Label<C>>, n: NodeId)
    requires IsRun(m, ls) && AllAfterPop(ls) && OutOrBack(m.pc, n)
    ensures m.log <= After(m, ls).log && OnlyOf(NewEvents(m, After(m, ls)), n)
    ensures (exists i :: 0 <= i < |ls| && ls[i].Call?) ==> Called(n) in NewEvents(m, After(m, ls))
    decreases |ls|
  {
    if ls != [] {
      var t, u := Next(m, ls[0]), After(m, ls);
      LogGrows(m, ls[0]);
      RunLogGrows(t, ls[1..]);
      EventsSplit(m, t, u);
      assert AfterPop(ls[0]);
      StepOnlyOf(m, ls[0], n);
      RunOnlyOf(t, ls[1..], n);
      if exists i :: 0 <= i < |ls| && ls[i].Call? {
        var i :| 0 <= i < |ls| && ls[i].Call?;
        assert i > 0 ==> ls[1..][i - 1].Call?;
      }
    }
  }

  lemma OnlyOfCounts(d: seq<Event>, n: NodeId)
    requires OnlyOf(d, n)
    ensures Dispatches(d) == []
  {
    if d != [] {
      assert OnlyOf(d[1..], n);
      OnlyOfCounts(d[1..], n);
    }
  }

  lemma AfterOne<C>(m: Machine<C>, l: Label<C>)
    requires Legal(m, l)
    ensures IsRun(m, [l]) && After(m, [l]) == Next(m, l)
  {
    assert [l][1..] == [] && IsRun(Next(m, l), []);
  }

  /** The steps from the check of `running` to the pop take the front node out. */
  lemma PopsFront<C>(d: Machine<C>, stopRace: bool)
    requires Sound(d) && IsRun(d, PopLabels(stopRace)) && d.pc.Polling? && d.state.readyQueue != []
    ensures var t, n := After(d, PopLabels(stopRace)), d.state.readyQueue[0];
      && t.pc.Running? && t.pc.job.node == n && d.log <= t.log
      && NewEvents(d, t) == (if stopRace then [StopRequested, Dispatched(n)] else [Dispatched(n)])
  {
    var ls := PopLabels<C>(stopRace);
    PopKeepsStructure(d.state);
    var c := Next(d, Commit);
    if stopRace {
      assert ls == [Commit, Stop, Pop] && ls[1..] == [Stop, Pop] && ls[1..][1..] == [Pop];
      AfterOne(Next(c, Stop), Pop);
      assert After(d, ls) == Next(Next(c, Stop), Pop);
    } else {
      assert ls == [Commit, Pop] && ls[1..] == [Pop];
      AfterOne(c, Pop);
      assert After(d, ls) == Next(c, Pop);
    }
  }

  /**
   A turn of a scheduler that runs serves the queue: exactly one dispatch starts, of the node at the front
   once the due timers have fired, and that node is called.
   */
  lemma TurnServes<C>(m: Machine<C>, turn: Turn<C>, exited: bool, ls: seq<Label<C>>)
    requires Sound(m) && m.pc.Polling? && TurnTaken(m, turn, exited, ls)
    ensures var d, t := After(m, Opening(turn)), After(m, ls);
      && m.log <= d.log <= t.log
      && (exited ==> NewEvents(d, t) == [])
      && (!exited && d.state.readyQueue == [] ==> NewEvents(d, t) == [])
      && (!exited && d.state.readyQueue != [] ==>
            var n := d.state.readyQueue[0];
            && Dispatches(NewEvents(d, t)) == [n] && Called(n) in NewEvents(d, t)
            && forall i :: 0 <= i < |NewEvents(d, t)| && NewEvents(d, t)[i].Retired? ==> NewEvents(d, t)[i].node == n)
  {
    var d, t := After(m, Opening(turn)), After(m, ls);
    RunLogGrows(m, Opening(turn));
    RunKeepsSound(m, Opening(turn));
    OpeningPolls(m, turn);
    if exited {
      RunSplit(m, Opening(turn), [Exit]);
      assert [Label<C>.Exit][1..] == [];
    } else if d.state.readyQueue != [] {
      var n := d.state.readyQueue[0];
      var a, b := PopLabels<C>(turn.stopRace), JobLabels(turn, d.state.components[n], d.state.nodes[n]);
      RunSplit(m, Opening(turn), a + b);
      RunSplit(d, a, b);
      PopsFront(d, turn.stopRace);
      JobServes(After(d, a), turn, d.state.components[n], d.state.nodes[n], n);
      ServedEvents(d, After(d, a), t, n, turn.stopRace);
    }
  }

  lemma ServedEvents<C>(d: Machine<C>, p: Machine<C>, t: Machine<C>, n: NodeId, stopRace: bool)
    requires d.log <= p.log <= t.log && OnlyOf(NewEvents(p, t), n) && Called(n) in NewEvents(p, t)
    requires NewEvents(d, p) == (if stopRace then [StopRequested, Dispatched(n)] else [Dispatched(n)])
    ensures Dispatches(NewEvents(d, t)) == [n] && Called(n) in NewEvents(d, t)
    ensures forall i :: 0 <= i < |NewEvents(d, t)| && NewEvents(d, t)[i].Retired? ==> NewEvents(d, t)[i].node == n
  {
    EventsSplit(d, p, t);
    CountsConcat(NewEvents(d, p), NewEvents(p, t));
    OnlyOfCounts(NewEvents(p, t), n);
    assert NewEvents(d, p)[1..] == (if stopRace then [Dispatched(n)] else []);
    assert [Dispatched(n)][1..] == [];
  }

  lemma JobCalls<C>(turn: Turn<C>, c: C, ctx: Context) returns (k: nat)
    ensures AllAfterPop(JobLabels(turn, c, ctx)) && k < |JobLabels(turn, c, ctx)| && JobLabels(turn, c, ctx)[k].Call?
  {
    var a, b := LabelsOf<C>(turn.afterPop), LabelsOf<C>(turn.during(0));
    var calls := CallLabels(turn.process, c, Prepared(ctx), turn.during, 0);
    CallLabelsAfterPop(turn.process, c, Prepared(ctx), turn.during, 0);
    assert AllAfterPop(a) && AllAfterPop(b);
    k := |a| + 1 + |b|;
    var ls := JobLabels(turn, c, ctx);
    assert ls == a + [Begin] + b + calls + [Settle];
    assert ls[k] == calls[0];
  }

  lemma JobServes<C>(p: Machine<C>, turn: Turn<C>, c: C, ctx: Context, n: NodeId)
    requires p.pc.Running? && p.pc.job.node == n && IsRun(p, JobLabels(turn, c, ctx))
    ensures var t := After(p, JobLabels(turn, c, ctx));
      p.log <= t.log && OnlyOf(NewEvents(p, t), n) && Called(n) in NewEvents(p, t)
  {
    var k := JobCalls(turn, c, ctx);
    RunOnlyOf(p, JobLabels(turn, c, ctx), n);
  }

  /** The first part of a turn leaves the executor where it was. */
  lemma OpeningPolls<C>(m: Machine<C>, turn: Turn<C>)
    requires m.pc.Polling? && IsRun(m, Opening(turn))
    ensures After(m, Opening(turn)).pc.Polling?
  {
    StaysPolling(m, Opening(turn));
  }

  lemma {:induction false} StaysPolling<C>(m: Machine<C>, ls: seq<Label<C>>)
    requires m.pc.Polling? && IsRun(m, ls)
    requires forall i :: 0 <= i < |ls| ==> ls[i].Signal? || ls[i].Wake? || ls[i].Stop? || ls[i].Drain?
    ensures After(m, ls).pc.Polling? && m.state.readyQueue <= After(m, ls).state.readyQueue
    ensures m.log <= After(m, ls).log && Dispatches(NewEvents(m, After(m, ls))) == []
    ensures forall i :: 0 <= i < |NewEvents(m, After(m, ls))| ==> !NewEvents(m, After(m, ls))[i].Retired?
    decreases |ls|
  {
    if ls != [] {
      var t, u := Next(m, ls[0]), After(m, ls);
      LogGrows(m, ls[0]);
      QueueGrows(m, ls[0]);
      StaysPolling(t, ls[1..]);
      EventsSplit(m, t, u);
      CountsConcat(NewEvents(m, t), NewEvents(t, u));
      if ls[0].Drain? {
        CountsOfFirings(DueInOrder(m.state.timerLatest, ls[0].now), ls[0].now);
      } else if NewEvents(m, t) != [] {
        CountsOfOne(NewEvents(m, t));
      }
    }
  }

  // ----- many turns -----

  /** The node that is at the front when the turn begins is still there when the queue is popped. */
  lemma FrontServed<C>(m: Machine<C>, turn: Turn<C>, ls: seq<Label<C>>)
    requires Sound(m) && m.pc.Polling? && TurnTaken(m, turn, false, ls) && m.state.readyQueue != []
    ensures var t, h := After(m, ls), m.state.readyQueue[0];
      && m.log <= t.log && Dispatches(NewEvents(m, t)) == [h] && Called(h) in NewEvents(m, t)
      && forall i :: 0 <= i < |NewEvents(m, t)| && NewEvents(m, t)[i].Retired? ==> NewEvents(m, t)[i].node == h
  {
    var d, t := After(m, Opening(turn)), After(m, ls);
    TurnServes(m, turn, false, ls);
    StaysPolling(m, Opening(turn));
    assert m.state.readyQueue[0] == d.state.readyQueue[0];
    EventsSplit(m, d, t);
    CountsConcat(NewEvents(m, d), NewEvents(d, t));
  }

  /** A turn in which the scheduler goes on: n is called, or the line in front of it gets shorter by one at least. */
  lemma TurnAdvances<C>(m: Machine<C>, turn: Turn<C>, ls: seq<Label<C>>, n: NodeId)
    requires Sound(m) && m.pc.Polling? && TurnTaken(m, turn, false, ls) && n in m.state.readyQueue
    ensures var t := After(m, ls);
      && m.log <= t.log
      && (Called(n) in NewEvents(m, t)
          || (n in t.state.readyQueue && IndexOf(t.state.readyQueue, n) < IndexOf(m.state.readyQueue, n)))
  {
    FrontServed(m, turn, ls);
    if m.state.readyQueue[0] != n {
      DispatchedAre(NewEvents(m, After(m, ls)), n);
      WaitedRun(m, ls, n);
      WaitedMeans(m, After(m, ls), n);
    }
  }

  lemma DispatchedAre(d: seq<Event>, n: NodeId)
    ensures Dispatched(n) in d <==> n in Dispatches(d)
  {
    if d != [] {
      DispatchedAre(d[1..], n);
      assert d == [d[0]] + d[1..];
    }
  }

  /**
   Every queued node is served: if it stands at position k and the loop goes on for more than k turns, it
   is called in one of them, whatever other threads and components do.
   */
  lemma {:induction false} QueuedIsServed<C>(m: Machine<C>, turns: seq<Turn<C>>, parts: seq<seq<Label<C>>>, n: NodeId)
    requires Sound(m) && m.pc.Polling? && TurnsTaken(m, turns, false, parts) && n in m.state.readyQueue
    requires IndexOf(m.state.readyQueue, n) < |turns|
    ensures IsRun(m, Flat(parts)) && m.log <= After(m, Flat(parts)).log
    ensures Called(n) in NewEvents(m, After(m, Flat(parts)))
    decreases |parts|
  {
    var t := After(m, parts[0]);
    TurnAdvances(m, turns[0], parts[0], n);
    FirstOfTurns(m, turns, parts);
    RunLogGrows(t, Flat(parts[1..]));
    EventsSplit(m, t, After(m, Flat(parts)));
    if Called(n) !in NewEvents(m, t) {
      QueuedIsServed(t, turns[1..], parts[1..], n);
    }
  }

  lemma TurnEnds<C>(m: Machine<C>, turn: Turn<C>, ls: seq<Label<C>>)
    requires Sound(m) && m.pc.Polling? && TurnTaken(m, turn, false, ls)
    ensures Sound(After(m, ls)) && After(m, ls).pc.Polling?
  {
    RunKeepsSound(m, ls);
    OpeningPolls(m, turn);
    var d := After(m, Opening(turn));
    if d.state.readyQueue != [] {
      var n := d.state.readyQueue[0];
      var a := PopLabels(turn.stopRace) + JobLabels(turn, d.state.components[n], d.state.nodes[n]);
      RunSplit(m, Opening(turn), a);
      assert a == a[..|a| - 1] + [Settle];
      RunSplit(d, a[..|a| - 1], [Settle]);
      assert [Label<C>.Settle][1..] == [];
    }
  }

  lemma {:induction false} TurnsRun<C>(m: Machine<C>, turns: seq<Turn<C>>, parts: seq<seq<Label<C>>>)
    requires Sound(m) && m.pc.Polling? && TurnsTaken(m, turns, false, parts)
    ensures IsRun(m, Flat(parts))
    decreases |parts|
  {
    if parts != [] {
      TurnEnds(m, turns[0], parts[0]);
      TurnsRun(After(m, parts[0]), turns[1..], parts[1..]);
      RunConcat(m, parts[0], Flat(parts[1..]));
    }
  }

  lemma FlatSnoc<T>(parts: seq<seq<T>>, part: seq<T>)
    ensures Flat(parts + [part]) == Flat(parts) + part
  {
    if parts == [] {
      assert [part][1..] == [];
    } else {
      assert (parts + [part])[1..] == parts[1..] + [part];
      FlatSnoc(parts[1..], part);
    }
  }

  /** The first part and the rest of some turns. */
  lemma FirstOfTurns<C>(m: Machine<C>, turns: seq<Turn<C>>, parts: seq<seq<Label<C>>>)
    requires Sound(m) && m.pc.Polling? && TurnsTaken(m, turns, false, parts) && parts != []
    ensures var t := After(m, parts[0]);
      && Sound(t) && t.pc.Polling? && TurnsTaken(t, turns[1..], false, parts[1..])
      && IsRun(t, Flat(parts[1..])) && IsRun(m, Flat(parts)) && After(m, Flat(parts)) == After(t, Flat(parts[1..]))
  {
    TurnEnds(m, turns[0], parts[0]);
    TurnsRun(After(m, parts[0]), turns[1..], parts[1..]);
    RunConcat(m, parts[0], Flat(parts[1..]));
  }

  lemma HeadAndRest<T>(xs: seq<T>, x: T)
    requires xs != []
    ensures xs + [x] == [xs[0]] + (xs[1..] + [x])
  {
  }

  lemma {:induction false} TurnsTakenSnoc<C>(m: Machine<C>, turns: seq<Turn<C>>, parts: seq<seq<Label<C>>>,
      turn: Turn<C>, exited: bool, part: seq<Label<C>>)
    requires Sound(m) && m.pc.Polling? && TurnsTaken(m, turns, false, parts) && IsRun(m, Flat(parts))
    requires TurnTaken(After(m, Flat(parts)), turn, exited, part)
    ensures TurnsTaken(m, turns + [turn], exited, parts + [part])
    decreases |parts|
  {
    if parts == [] {
      TurnsTakenOne(m, turn, exited, part);
      assert parts + [part] == [part] && turns + [turn] == [turn];
    } else {
      FirstOfTurns(m, turns, parts);
      TurnsTakenSnoc(After(m, parts[0]), turns[1..], parts[1..], turn, exited, part);
      TurnsTakenCons(m, turns[0], parts[0], turns[1..] + [turn], exited, parts[1..] + [part]);
      HeadAndRest(parts, part);
      HeadAndRest(turns, turn);
    }
  }

  lemma TurnsTakenOne<C>(m: Machine<C>, turn: Turn<C>, exited: bool, part: seq<Label<C>>)
    requires TurnTaken(m, turn, exited, part)
    ensures TurnsTaken(m, [turn], exited, [part])
  {
    assert [turn][1..] == [] && [part][1..] == [];
  }

  lemma TurnsTakenCons<C>(m: Machine<C>, turn: Turn<C>, part: seq<Label<C>>, turns: seq<Turn<C>>, exited: bool,
      parts: seq<seq<Label<C>>>)
    requires parts != [] && TurnTaken(m, turn, false, part) && TurnsTaken(After(m, part), turns, exited, parts)
    ensures TurnsTaken(m, [turn] + turns, exited, [part] + parts)
  {
    assert ([turn] + turns)[1..] == turns && ([part] + parts)[1..] == parts;
  }

  /** The first i turns were taken, and none of them exited. */
  ghost predicate TakenSoFar<C>(m: Machine<C>, turns: seq<Turn<C>>, i: nat, ls: seq<Label<C>>,
      parts: seq<seq<Label<C>>>) {
    i <= |turns| && IsRun(m, ls) && ls == Flat(parts) && TurnsTaken(m, turns[..i], false, parts)
  }

  /** One more turn. */
  lemma TakenOn<C>(m: Machine<C>, turns: seq<Turn<C>>, i: nat, ls: seq<Label<C>>, parts: seq<seq<Label<C>>>,
      exited: bool, more: seq<Label<C>>)
    requires Sound(m) && m.pc.Polling? && TakenSoFar(m, turns, i, ls, parts) && i < |turns|
    requires TurnTaken(After(m, ls), turns[i], exited, more)
    ensures IsRun(m, ls + more) && After(m, ls + more) == After(After(m, ls), more)
    ensures ls + more == Flat(parts + [more])
    ensures if exited then TurnsTaken(m, turns, true, parts + [more])
            else TakenSoFar(m, turns, i + 1, ls + more, parts + [more])
  {
    RunConcat(m, ls, more);
    FlatSnoc(parts, more);
    assert turns[..i + 1] == turns[..i] + [turns[i]];
    assert TurnsTaken(m, turns[..i + 1], exited, parts + [more]) by {
      TurnsTakenSnoc(m, turns[..i], parts, turns[i], exited, more);
    }
    if exited {
      TurnsTakenEarly(m, turns[..i + 1], parts + [more], turns[i + 1..]);
      assert turns[..i + 1] + turns[i + 1..] == turns;
    }
  }

  /** After an exit no further turn is taken. */
  lemma {:induction false} TurnsTakenEarly<C>(m: Machine<C>, turns: seq<Turn<C>>, parts: seq<seq<Label<C>>>,
      more: seq<Turn<C>>)
    requires TurnsTaken(m, turns, true, parts)
    ensures TurnsTaken(m, turns + more, true, parts)
    decreases |parts|
  {
    if parts != [] && |parts| > 1 {
      assert (turns + more)[1..] == turns[1..] + more;
      TurnsTakenEarly(After(m, parts[0]), turns[1..], parts[1..], more);
    }
  }
}
