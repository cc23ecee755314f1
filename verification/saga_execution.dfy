/** One execution of the saga state machine, updating its document, counters and position in
    place and invoking the handlers, which update the store. Proved against the step function. */
module SagaExecutions {
  import opened StatesLanguage
  import opened SagaRecords
  import opened SagaHandlers
  import opened SagaMachine
  import SagaBounds

  class SagaExecution {
    const handlers: Handlers
    var at: Position
    var counters: Counters
    var doc: Doc
    ghost var log: Log

    constructor (handlers: Handlers, input: Doc)
      ensures this.handlers == handlers && at == At(InitializeSaga) && doc == input
      ensures View() == Begin(input, Item())
    {
      this.handlers := handlers;
      at := At(InitializeSaga);
      counters := map[];
      doc := input;
      log := NEW_LOG;
    }

    /** The store's item for this execution's order. */
    ghost function Item(): Option<Record>
      reads this, handlers, handlers.store
    {
      if doc.order.Some? then Lookup(handlers.store.items, doc.order.value.orderId) else None
    }

    ghost function View(): Execution
      reads this, handlers, handlers.store
    {
      Execution(at, counters, doc, Item(), log)
    }

    /** Items of all other orders. */
    ghost function Others(): map<string, Record>
      reads this, handlers, handlers.store
    {
      if doc.order.Some? then handlers.store.items - {doc.order.value.orderId} else handlers.store.items
    }

    method PlaceOutput(path: Path, output: Output)
      modifies this`doc
      ensures doc == Place(old(doc), path, output) && doc.order == old(doc.order)
    {
      match path
      case ResultsPath => doc := doc.(results := map[]);
      case ResultPath(k) => doc := doc.(results := doc.results[k := output]);
      case CompensationPath(k) => doc := doc.(compensation := doc.compensation[k := output]);
      case ErrorPath => doc := doc.(error := Some(output));
    }

    /** The interpreter's reaction to a successful Task attempt. */
    method HandleReturn(s: StateName, output: Output)
      requires Definition(s).TaskState?
      modifies this
      ensures View() == OnReturn(old(View()), s, output) && Others() == old(Others())
    {
      var d := Definition(s);
      PlaceOutput(d.taskPath, output);
      log := LogSuccess(log, s, output);
      if d.after.Some? {
        at, counters := At(d.after.value), map[];
      } else {
        at := Succeeded;
      }
    }

    /** The interpreter's reaction to a failed Task attempt: retry, catch or fail. */
    method HandleVerdict(v: Verdict<Path, StateName>, e: ErrorName)
      modifies this
      ensures View() == React(old(View()), v, e) && Others() == old(Others())
    {
      match v
      case RetryAfter(wait, used) =>
        counters := used;
        log := log.(waited := log.waited + wait);
      case CaughtBy(fallback) =>
        PlaceOutput(fallback.resultPath, ErrorInfo(e));
        at, counters := At(fallback.next), map[];
      case Uncaught =>
        at := Failed(e);
    }

    method HandleRaise(s: StateName, e: ErrorName)
      requires Definition(s).TaskState?
      modifies this
      ensures View() == OnRaise(old(View()), s, e) && Others() == old(Others())
    {
      HandleVerdict(OnError(Definition(s).retriers, Definition(s).catchers, counters, e), e);
    }

    /** The Lambda invocation of one attempt. */
    method InvokeTask(s: StateName, fault: Fault, suffix: string) returns (reply: Reply)
      requires Definition(s).TaskState?
      modifies this, handlers.store
      ensures var x := old(View());
              var r := Invoke(Definition(s).handler, x.doc, x.item, fault, suffix);
              View() == Attempted(x, s, r.0) && reply == r.1 && Others() == old(Others())
    {
      reply := handlers.InvokeHandler(Definition(s).handler, doc, fault, suffix);
      log := log.(tries := log.tries[s := Tries(log, s) + 1], attempts := log.attempts + 1,
                  busy := log.busy + TimeoutOf(s));
    }

    /** One attempt of the current Task and the reaction to its outcome. */
    method RunTaskOnce(s: StateName, fault: Fault, suffix: string)
      requires at == At(s) && Definition(s).TaskState?
      modifies this, handlers.store
      ensures View() == RunTask(old(View()), s, fault, suffix) && Others() == old(Others())
    {
      var reply := InvokeTask(s, fault, suffix);
      if reply.Returned? {
        HandleReturn(s, reply.output);
      } else {
        HandleRaise(s, reply.error);
      }
    }

    method RunOnce(event: Event)
      modifies this, handlers.store
      ensures View() == Step(old(View()), event) && Others() == old(Others())
    {
      match at
      case At(s) =>
        match Definition(s) {
          case FailState =>
          case PassState(path, next) =>
            if event.ExecutionTimeout? { at := TimedOut; return; }
            PlaceOutput(path, OtherJson);
            at, counters := At(next), map[];
          case TaskState(_, _, _, _, _, _) =>
            if event.ExecutionTimeout? { at := TimedOut; return; }
            RunTaskOnce(s, event.fault, event.suffix);
        }
      case _ =>
    }

    /** Runs the machine over a sequence of events. */
    method Run(events: seq<Event>)
      modifies this, handlers.store
      ensures View() == RunAll(old(View()), events) && Others() == old(Others())
    {
      var i := 0;
      while i < |events|
        invariant 0 <= i <= |events|
        invariant RunAll(View(), events[i..]) == RunAll(old(View()), events)
        invariant Others() == old(Others())
      {
        assert events[i..][1..] == events[i + 1..];
        RunOnce(events[i]);
        i := i + 1;
      }
    }
  }

  /** Start to finish: enough events always bring a new execution to a halt. */
  method Orchestrate(handlers: Handlers, input: Doc, events: seq<Event>) returns (x: SagaExecution)
    requires |events| >= 56
    modifies handlers.store
    ensures fresh(x) && Halted(x.View())
  {
    x := new SagaExecution(handlers, input);
    SagaBounds.EveryRunHalts(input, x.Item(), events);
    x.Run(events);
  }
}
