/** The interface between the scheduler and the components it drives (component_api/src/lib.rs). */
module ComponentApi {
  import opened Prelude

  /** Slots of an ordinary edge and of the dedicated channel of a lone initial packet. */
  const PROCESSEDGE_BUFSIZE: nat := 7 * 7 * 7 * 7
  const PROCESSEDGE_IIP_BUFSIZE: nat := 1
  const MAX_BUDGET: nat := 96
  const U32: nat := 0x1_0000_0000

  datatype BudgetClass = Normal | Heavy | Realtime

  function Budget(b: BudgetClass): (n: nat)
    ensures 8 <= n <= MAX_BUDGET
  {
    match b
    case Normal => 32
    case Heavy => 8
    case Realtime => 96
  }

  /** What one `process` call reports. A panic caught by the scheduler is a fourth outcome. */
  datatype CallResult = DidWork(units: nat) | NoWork | Finished | Panicked

  /** `NodeContext`, without the ready flag: that flag is shared with the scheduler and lives there. */
  datatype Context = Context(
    budgetClass: BudgetClass,
    remainingBudget: nat,
    executionCount: nat,
    workUnitsProcessed: nat,
    wakeAt: Option<Instant>,
    timerFiredAt: Option<Instant>)

  function NewContext(b: BudgetClass): Context {
    Context(b, 0, 0, 0, None, None)
  }

  /** The next signal waiting for a component is a stop. */
  predicate StopNext(signals: seq<string>) {
    signals != [] && signals[0] == "stop"
  }
}
