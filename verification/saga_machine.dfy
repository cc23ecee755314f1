/** The saga state machine: its transition table, a step function for one execution, and the
    class that executes it against the handlers and the store. */
module SagaMachine {
  import opened StatesLanguage
  import opened SagaRecords
  import opened SagaHandlers

  datatype StateName =
    | InitializeSaga | Run(f: Forward) | CompleteSaga | Undo(c: Compensation)
    | MarkFailed | SagaFailed | CompensationFailed

  datatype Path = ResultsPath | ResultPath(key: ResultKey) | CompensationPath(ckey: CompensationKey) | ErrorPath

  datatype StateDef =
    | PassState(resultPath: Path, next: StateName)
    | TaskState(handler: Handler, taskPath: Path, retriers: seq<Rule<RetryPolicy>>,
                catchers: seq<Rule<Fallback<Path, StateName>>>, after: Option<StateName>, timeout: nat)
    | FailState

  const FORWARD_RETRY := [Rule([Named(SagaTransientError)], RetryPolicy(2, 3, 2)),
                          Rule(LAMBDA_ERRORS, RetryPolicy(1, 4, 2))]

  function NextForward(f: Forward): StateName {
    match f
    case CreateOrder => Run(ChargePayment)
    case ChargePayment => Run(ReserveInventory)
    case ReserveInventory => Run(ScheduleShipment)
    case ScheduleShipment => CompleteSaga
  }

  function OnForwardFailure(f: Forward): StateName {
    match f
    case CreateOrder => MarkFailed
    case ChargePayment => Undo(CancelOrder)
    case ReserveInventory => Undo(RefundPayment)
    case ScheduleShipment => Undo(ReleaseInventory)
  }

  function NextUndo(c: Compensation): StateName {
    match c
    case ReleaseInventory => Undo(RefundPayment)
    case RefundPayment => Undo(CancelOrder)
    case CancelOrder => MarkFailed
  }

  function Definition(s: StateName): StateDef {
    match s
    case InitializeSaga => PassState(ResultsPath, Run(CreateOrder))
    case Run(f) =>
      TaskState(Forwards(f), ResultPath(ResultOf(f)), FORWARD_RETRY,
                CatchAll(ErrorPath, OnForwardFailure(f)), Some(NextForward(f)), 30)
    case CompleteSaga => TaskState(Completes, ResultPath(Completion), RetryAll(2, 3), [], None, 30)
    case Undo(c) =>
      TaskState(Undoes(c), CompensationPath(UndoneBy(c)), RetryAll(3, 5),
                CatchAll(CompensationPath(CompensationErrorKey), CompensationFailed), Some(NextUndo(c)), 60)
    case MarkFailed =>
      TaskState(MarksFailed, ResultPath(FailureMark), RetryAll(2, 4), [], Some(SagaFailed), 30)
    case SagaFailed => FailState
    case CompensationFailed => FailState
  }

  /** TimeoutSeconds of the machine, and of a state. */
  const EXECUTION_TIMEOUT_SECONDS := 900

  function TimeoutOf(s: StateName): nat {
    if Definition(s).TaskState? then Definition(s).timeout else 0
  }

  /** Where an execution is: in a state, or ended without a Fail state. */
  datatype Position = At(state: StateName) | Succeeded | Failed(error: ErrorName) | TimedOut

  /** History kept only to state properties; no transition reads it. `busy` is the longest time the
      attempts so far can have taken, by their states' timeouts. */
  datatype Log = Log(succeeded: seq<Forward>, returned: map<Forward, Output>,
                     compensated: seq<Compensation>, tries: map<StateName, nat>, attempts: nat,
                     waited: nat, busy: nat)

  datatype Execution = Execution(at: Position, counters: Counters, doc: Doc, item: Option<Record>, log: Log)

  /** The next thing that happens: one attempt of the current Task, or the execution timeout. */
  datatype Event = Attempt(fault: Fault, suffix: string) | ExecutionTimeout

  function Tries(log: Log, s: StateName): nat {
    if s in log.tries then log.tries[s] else 0
  }

  const NEW_LOG := Log([], map[], [], map[], 0, 0, 0)

  function Begin(doc: Doc, item: Option<Record>): Execution {
    Execution(At(InitializeSaga), map[], doc, item, NEW_LOG)
  }

  predicate Halted(x: Execution) {
    !x.at.At? || x.at.state.SagaFailed? || x.at.state.CompensationFailed?
  }

  function Place(doc: Doc, path: Path, output: Output): Doc {
    match path
    case ResultsPath => doc.(results := map[])
    case ResultPath(k) => doc.(results := doc.results[k := output])
    case CompensationPath(k) => doc.(compensation := doc.compensation[k := output])
    case ErrorPath => doc.(error := Some(output))
  }

  function Enter(x: Execution, s: StateName): Execution {
    x.(at := At(s), counters := map[])
  }

  function LogSuccess(log: Log, s: StateName, output: Output): Log {
    match s
    case Run(f) => log.(succeeded := log.succeeded + [f], returned := log.returned[f := output])
    case Undo(c) => log.(compensated := log.compensated + [c])
    case _ => log
  }

  function OnReturn(x: Execution, s: StateName, output: Output): Execution
    requires Definition(s).TaskState?
  {
    var d := Definition(s);
    var y := x.(doc := Place(x.doc, d.taskPath, output), log := LogSuccess(x.log, s, output));
    if d.after.Some? then Enter(y, d.after.value) else y.(at := Succeeded)
  }

  function React(x: Execution, v: Verdict<Path, StateName>, e: ErrorName): Execution {
    match v
    case RetryAfter(wait, counters) => x.(counters := counters, log := x.log.(waited := x.log.waited + wait))
    case CaughtBy(fallback) => Enter(x.(doc := Place(x.doc, fallback.resultPath, ErrorInfo(e))), fallback.next)
    case Uncaught => x.(at := Failed(e))
  }

  function OnRaise(x: Execution, s: StateName, e: ErrorName): Execution
    requires Definition(s).TaskState?
  {
    var d := Definition(s);
    React(x, OnError(d.retriers, d.catchers, x.counters, e), e)
  }

  /** The execution after the Lambda invocation of one attempt, before its outcome is acted on. */
  function Attempted(x: Execution, s: StateName, item: Option<Record>): Execution {
    x.(item := item,
       log := x.log.(tries := x.log.tries[s := Tries(x.log, s) + 1], attempts := x.log.attempts + 1,
                     busy := x.log.busy + TimeoutOf(s)))
  }

  function RunTask(x: Execution, s: StateName, fault: Fault, suffix: string): Execution
    requires Definition(s).TaskState?
  {
    var r := Invoke(Definition(s).handler, x.doc, x.item, fault, suffix);
    var y := Attempted(x, s, r.0);
    if r.1.Returned? then OnReturn(y, s, r.1.output) else OnRaise(y, s, r.1.error)
  }

  function Step(x: Execution, e: Event): Execution
  {
    if Halted(x) then x
    else if e.ExecutionTimeout? then x.(at := TimedOut)
    else
      var d := Definition(x.at.state);
      match d
      case PassState(path, next) => Enter(x.(doc := Place(x.doc, path, OtherJson)), next)
      case TaskState(_, _, _, _, _, _) => RunTask(x, x.at.state, e.fault, e.suffix)
      case FailState => x
  }

  /** The whole run driven by a sequence of events. */
  function RunAll(x: Execution, events: seq<Event>): Execution
    decreases |events|
  {
    if events == [] then x else RunAll(Step(x, events[0]), events[1..])
  }
}
