/**
 `execute_component`: the budget loop around an arbitrary component. The component is any function
 from its own state and its context to a reply; it may rewrite every field of the context.
 */
module BudgetLoop {
  import opened Prelude
  import opened ComponentApi
  import opened SchedulerModel
  import opened Machine

  datatype Executed<C> = Executed(component: C, context: Context, outcome: Outcome)

  type Behaviour<!C> = (C, Context) -> Reply<C>

  /** The calls still to come, from the state at the head of the loop. */
  function Loop<C>(process: Behaviour<C>, c: C, ctx: Context, o: Outcome): Executed<C>
    decreases ctx.remainingBudget
  {
    if ctx.remainingBudget == 0 then Executed(c, ctx, o)
    else
      var r := process(c, ctx);
      match r.result
      case DidWork(units) =>
        Loop(process, r.component, Charge(ctx.remainingBudget, r.context, units), AddWork(o, units))
      case NoWork => Executed(r.component, r.context, o)
      case Finished => Executed(r.component, r.context, o.(finished := true))
      case Panicked => Executed(r.component, r.context, o.(finished := true, panicked := true))
  }

  /** What `execute_component` computes: a fresh budget, a fresh outcome, then the loop. */
  function Dispatch<C>(process: Behaviour<C>, c: C, ctx: Context): Executed<C> {
    Loop(process, c, Prepared(ctx), NO_OUTCOME)
  }

  /** Books a call that reports work: at least one unit, and never less than the component took itself. */
  method Account(budgetBefore: nat, context: Context, units: nat, outcome: Outcome)
    returns (ctx: Context, o: Outcome)
    ensures ctx == Charge(budgetBefore, context, units) && o == AddWork(outcome, units)
  {
    var accounted := if units < 1 then 1 else units;
    var budgetAfterComponent :=
      if context.remainingBudget < budgetBefore then context.remainingBudget else budgetBefore;
    var consumedByComponent := budgetBefore - budgetAfterComponent;
    var consumed := if consumedByComponent < accounted then accounted else consumedByComponent;
    ctx := context.(
      remainingBudget := if budgetBefore < consumed then 0 else budgetBefore - consumed,
      workUnitsProcessed := context.workUnitsProcessed + accounted,
      executionCount := context.executionCount + 1);
    o := outcome.(didWork := true, executions := outcome.executions + 1, workUnits := outcome.workUnits + accounted);
  }

  /** One call: the budget when it was made, what the component left of it, and what it reported. */
  datatype CallRecord = CallRecord(budget: nat, left: nat, result: CallResult)

  function Trace<C>(process: Behaviour<C>, c: C, ctx: Context): seq<CallRecord>
    decreases ctx.remainingBudget
  {
    if ctx.remainingBudget == 0 then []
    else
      var r := process(c, ctx);
      [CallRecord(ctx.remainingBudget, r.context.remainingBudget, r.result)] +
      (match r.result
       case DidWork(units) => Trace(process, r.component, Charge(ctx.remainingBudget, r.context, units))
       case _ => [])
  }

  /** Work units as the scheduler accounts them. */
  function Work(t: seq<CallRecord>): nat {
    if t == [] then 0 else (if t[0].result.DidWork? then Max(t[0].result.units, 1) else 0) + Work(t[1..])
  }

  function Worked(t: seq<CallRecord>): nat {
    if t == [] then 0 else (if t[0].result.DidWork? then 1 else 0) + Worked(t[1..])
  }

  /** A component that never reports more than it was given. */
  predicate Honest(t: seq<CallRecord>) {
    forall i :: 0 <= i < |t| && t[i].result.DidWork? ==> Max(t[i].result.units, 1) <= t[i].budget
  }

  /**
   The budget b holds: at most b calls, each with less budget than the one before; all but the last
   report work, and stay below b in accounted work; a component that reports no more than it was
   given stays within b altogether.
   */
  ghost predicate WithinBudget(t: seq<CallRecord>, b: nat) {
    && |t| <= b
    && (forall i :: 0 <= i < |t| ==> 0 < t[i].budget <= b - i)
    && (forall i, j :: 0 <= i < j < |t| ==> t[j].budget < t[i].budget)
    && (forall i :: 0 <= i < |t| - 1 ==> t[i].result.DidWork?)
    && (t != [] ==> Work(t[..|t| - 1]) < b)
    && (Honest(t) ==> Work(t) <= b)
  }

  lemma WithinBudgetCons(r: CallRecord, rest: seq<CallRecord>, b: nat)
    requires 0 < r.budget && r.result.DidWork? && WithinBudget(rest, b)
    requires b <= SatSub(r.budget, Max(r.result.units, 1))
    ensures WithinBudget([r] + rest, r.budget)
  {
    var t := [r] + rest;
    assert t[1..] == rest;
    if rest != [] {
      assert t[..|t| - 1] == [r] + rest[..|rest| - 1];
      assert t[..|t| - 1][1..] == rest[..|rest| - 1];
    }
    if Honest(t) {
      assert forall i :: 0 <= i < |rest| ==> rest[i] == t[i + 1];
      assert Max(t[0].result.units, 1) <= t[0].budget;
    }
  }

  lemma {:induction false} BudgetHolds<C>(process: Behaviour<C>, c: C, ctx: Context)
    ensures WithinBudget(Trace(process, c, ctx), ctx.remainingBudget)
    ensures ctx.remainingBudget > 0 ==> Trace(process, c, ctx) != []
    decreases ctx.remainingBudget
  {
    if ctx.remainingBudget > 0 {
      var r := process(c, ctx);
      var t := Trace(process, c, ctx);
      if r.result.DidWork? {
        var next := Charge(ctx.remainingBudget, r.context, r.result.units);
        BudgetHolds(process, r.component, next);
        WithinBudgetCons(t[0], Trace(process, r.component, next), next.remainingBudget);
      } else {
        assert t == [CallRecord(ctx.remainingBudget, r.context.remainingBudget, r.result)];
        assert t[..0] == [] && t[1..] == [];
      }
    }
  }

  /** The outcome counts the calls of the trace. */
  lemma {:induction false} OutcomeCounts<C>(process: Behaviour<C>, c: C, ctx: Context, o: Outcome)
    ensures var t := Trace(process, c, ctx); var x := Loop(process, c, ctx, o).outcome;
      && x.executions == o.executions + Worked(t) && x.workUnits == o.workUnits + Work(t)
      && Worked(t) <= Work(t) && Worked(t) <= |t|
      && (x.didWork <==> o.didWork || Worked(t) > 0)
      && (x.finished <==> o.finished || (t != [] && (t[|t| - 1].result.Finished? || t[|t| - 1].result.Panicked?)))
    decreases ctx.remainingBudget
  {
    if ctx.remainingBudget > 0 {
      var r := process(c, ctx);
      var t := Trace(process, c, ctx);
      if r.result.DidWork? {
        var next := Charge(ctx.remainingBudget, r.context, r.result.units);
        OutcomeCounts(process, r.component, next, AddWork(o, r.result.units));
        assert t[1..] == Trace(process, r.component, next);
      } else {
        assert t[1..] == [];
      }
    }
  }

  /** A whole dispatch, from the budget of the node's class. */
  lemma DispatchWithinBudget<C>(process: Behaviour<C>, c: C, ctx: Context)
    ensures var b := Budget(ctx.budgetClass); var t := Trace(process, c, Prepared(ctx));
      var o := Dispatch(process, c, ctx).outcome;
      && 1 <= |t| <= b && Work(t[..|t| - 1]) < b
      && o.executions <= o.workUnits && o.executions <= b
      && (Honest(t) ==> o.workUnits <= b)
      && (o.didWork || o.finished || t[|t| - 1].result.NoWork?)
  {
    var t := Trace(process, c, Prepared(ctx));
    BudgetHolds(process, c, Prepared(ctx));
    OutcomeCounts(process, c, Prepared(ctx), NO_OUTCOME);
    if t[|t| - 1].result.DidWork? { SomeWorked(t, |t| - 1); }
  }

  lemma SomeWorked(t: seq<CallRecord>, i: nat)
    requires i < |t| && t[i].result.DidWork?
    ensures Worked(t) > 0
  {
    if i > 0 { SomeWorked(t[1..], i - 1); }
  }

  // ----- what a call costs -----

  /** A call that reports no work is booked as one unit. */
  function Booked(units: nat): nat {
    if units == 0 then 1 else units
  }

  /**
   The budget after a working call: the lesser of what the component left and what the units reported
   leave; a component cannot add to its budget, and does not pay twice for what it took itself.
   */
  function Rest(budget: nat, left: nat, units: nat): nat {
    if Booked(units) >= budget then 0
    else if left < budget - Booked(units) then left
    else budget - Booked(units)
  }

  /** The accounting of a working call, field by field. */
  lemma ChargeIsExact(before: nat, after: Context, units: nat)
    ensures Charge(before, after, units) == after.(
      remainingBudget := Rest(before, after.remainingBudget, units),
      workUnitsProcessed := after.workUnitsProcessed + Booked(units),
      executionCount := after.executionCount + 1)
    ensures 1 <= units <= before && (after.remainingBudget == before || after.remainingBudget == before - units) ==>
      Charge(before, after, units).remainingBudget == before - units
  {
  }

  /**
   The budgets of the calls of a dispatch: each is what the call before left, and a dispatch ends only when
   the budget is used up or a call reports something else than work.
   */
  lemma {:induction false} BudgetChain<C>(process: Behaviour<C>, c: C, ctx: Context)
    requires ctx.remainingBudget > 0
    ensures var t := Trace(process, c, ctx);
      && t != [] && t[0].budget == ctx.remainingBudget
      && (forall i :: 0 <= i < |t| - 1 ==>
            t[i].result.DidWork? && t[i + 1].budget == Rest(t[i].budget, t[i].left, t[i].result.units) > 0)
      && (t[|t| - 1].result.DidWork? ==>
            Rest(t[|t| - 1].budget, t[|t| - 1].left, t[|t| - 1].result.units) == 0)
    decreases ctx.remainingBudget
  {
    var r := process(c, ctx);
    if r.result.DidWork? {
      var next := Charge(ctx.remainingBudget, r.context, r.result.units);
      ChargeIsExact(ctx.remainingBudget, r.context, r.result.units);
      var t, rest := Trace(process, c, ctx), Trace(process, r.component, next);
      assert t == [CallRecord(ctx.remainingBudget, r.context.remainingBudget, r.result)] + rest;
      if next.remainingBudget > 0 {
        BudgetChain(process, r.component, next);
        forall i | 0 < i < |t| ensures t[i] == rest[i - 1] {}
      } else {
        assert rest == [];
      }
    }
  }

  /** Every call works, reports what it takes, and has lowered its budget by that much or left it alone. */
  predicate Eager(t: seq<CallRecord>) {
    forall i :: 0 <= i < |t| ==>
      && t[i].result.DidWork? && 1 <= t[i].result.units <= t[i].budget
      && (t[i].left == t[i].budget || t[i].left == t[i].budget - t[i].result.units)
  }

  lemma {:induction false} EagerWork<C>(process: Behaviour<C>, c: C, ctx: Context)
    requires Eager(Trace(process, c, ctx))
    ensures Work(Trace(process, c, ctx)) == ctx.remainingBudget
    decreases ctx.remainingBudget
  {
    if ctx.remainingBudget > 0 {
      var r := process(c, ctx);
      var t := Trace(process, c, ctx);
      assert t[0] == CallRecord(ctx.remainingBudget, r.context.remainingBudget, r.result);
      ChargeIsExact(ctx.remainingBudget, r.context, r.result.units);
      var next := Charge(ctx.remainingBudget, r.context, r.result.units);
      assert t[1..] == Trace(process, r.component, next);
      assert forall i :: 0 <= i < |t[1..]| ==> t[1..][i] == t[i + 1];
      EagerWork(process, r.component, next);
    }
  }

  /** A component that always has work gets all of its budget in one dispatch, and nothing more. */
  lemma EagerUsesBudget<C>(process: Behaviour<C>, c: C, ctx: Context)
    requires Eager(Trace(process, c, Prepared(ctx)))
    ensures Dispatch(process, c, ctx).outcome.workUnits ==
      match ctx.budgetClass
      case Normal => 32
      case Heavy => 8
      case Realtime => 96
  {
    EagerWork(process, c, Prepared(ctx));
    OutcomeCounts(process, c, Prepared(ctx), NO_OUTCOME);
  }
}
