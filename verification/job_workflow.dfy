/** The long-running state machine: submit, wait and poll until a terminal status, a token-gated
    sign-off, finalize. A step function for one execution and the class that executes it. */
module JobWorkflow {
  import opened Integers
  import opened StatesLanguage
  import opened JobRecords
  import opened JobHandlers

  datatype StateName =
    | SubmitJob | WaitForJob | PollJob | EvaluateJob | RequestSignoff | Finalize
    | JobFailed | JobTimedOut | SignoffTimedOut

  const LAMBDA_RETRY := [Rule(LAMBDA_ERRORS, RetryPolicy(2, 4, 2))]

  function Retriers(s: StateName): seq<Rule<RetryPolicy>> {
    match s
    case SubmitJob => LAMBDA_RETRY
    case PollJob => LAMBDA_RETRY
    case Finalize => RetryAll(2, 3)
    case _ => []
  }

  function Catchers(s: StateName): seq<Rule<Fallback<string, StateName>>> {
    match s
    case SubmitJob => CatchAll("$.error", JobFailed)
    case PollJob => CatchAll("$.error", JobFailed)
    case RequestSignoff => [Rule([Named(StatesTimeout)], Fallback("$.error", SignoffTimedOut)),
                            Rule([AllErrors], Fallback("$.error", JobFailed))]
    case _ => []
  }

  datatype Position = At(state: StateName) | Completed | Failed(error: ErrorName) | TimedOut

  /** History: attempts evaluated so far, seconds waited, and the gate's inputs. */
  datatype Log = Log(seen: seq<int>, waited: int, succeeded: bool, approved: bool)

  datatype Execution = Execution(at: Position, counters: Counters, job: JobDoc, asked: bool,
                                 item: Option<Job>, log: Log)

  datatype Event =
    | Proceed(fault: Fault, suffix: string)
    | SignoffReply(error: Option<ErrorName>)
    | ExecutionTimeout

  const NO_JOB := JobDoc("", RUNNING, 0, false, 0, 0)

  function Begin(item: Option<Job>): Execution {
    Execution(At(SubmitJob), map[], NO_JOB, false, item, Log([], 0, false, false))
  }

  predicate Halted(x: Execution) {
    !x.at.At? || x.at.state.JobFailed? || x.at.state.JobTimedOut? || x.at.state.SignoffTimedOut?
  }

  function Enter(x: Execution, s: StateName): Execution {
    x.(at := At(s), counters := map[])
  }

  /** Reaction to an error of the current Task: retry, catch or fail. */
  function React(x: Execution, s: StateName, e: ErrorName): Execution {
    match OnError(Retriers(s), Catchers(s), x.counters, e)
    case RetryAfter(_, counters) => x.(counters := counters)
    case CaughtBy(fallback) => Enter(x, fallback.next)
    case Uncaught => x.(at := Failed(e))
  }

  function WaitStep(x: Execution): Execution {
    if x.job.nextPoll < 0 then x.(at := Failed(OtherError("States.Runtime")))
    else Enter(x, PollJob).(log := x.log.(waited := x.log.waited + x.job.nextPoll))
  }

  /** The ordered Choice rules of EvaluateJob. */
  function Choose(job: JobDoc): StateName {
    if job.status == SUCCEEDED then RequestSignoff
    else if job.status == FAILED then JobFailed
    else if job.exhausted then JobTimedOut
    else WaitForJob
  }

  function EvaluateStep(x: Execution): Execution {
    Enter(x, Choose(x.job)).(log := x.log.(seen := x.log.seen + [x.job.attempt],
                                           succeeded := x.log.succeeded || x.job.status == SUCCEEDED))
  }

  function SubmitStep(cfg: Config, input: Input, x: Execution, fault: Fault, suffix: string): Execution {
    var r := Submit(cfg, input, x.item, fault, suffix);
    var y := x.(item := r.0);
    if r.1.Returned? then Enter(y, WaitForJob).(job := r.1.value) else React(y, SubmitJob, r.1.error)
  }

  function PollStep(cfg: Config, x: Execution, fault: Fault): Execution {
    var r := Poll(cfg, x.job.jobId, x.item, fault);
    var y := x.(item := r.0);
    if r.1.Returned? then Enter(y, EvaluateJob).(job := r.1.value) else React(y, PollJob, r.1.error)
  }

  /** request_signoff runs once; after it returns the task stays paused on its token. */
  function AskStep(x: Execution, fault: Fault, token: string): Execution {
    if x.asked then x
    else
      var r := WriteOnce(x.job.jobId, x.item, AttachToken(token), fault);
      var y := x.(item := r.0);
      if r.1.Returned? then y.(asked := true) else React(y, RequestSignoff, r.1.error)
  }

  function FinalizeStep(x: Execution, fault: Fault): Execution {
    var r := WriteOnce(x.job.jobId, x.item, SetStatus(COMPLETED), fault);
    var y := x.(item := r.0);
    if r.1.Returned? then y.(at := Completed) else React(y, Finalize, r.1.error)
  }

  /** SendTaskSuccess, SendTaskFailure or the gate's own timeout. */
  function ReplyStep(x: Execution, error: Option<ErrorName>): Execution {
    if x.at != At(RequestSignoff) then x
    else if error.None? then Enter(x, Finalize).(log := x.log.(approved := true))
    else React(x, RequestSignoff, error.value)
  }

  function Step(cfg: Config, input: Input, x: Execution, e: Event): Execution {
    if Halted(x) then x
    else
      match e
      case ExecutionTimeout => x.(at := TimedOut)
      case SignoffReply(error) => ReplyStep(x, error)
      case Proceed(fault, suffix) =>
        match x.at.state
        case SubmitJob => SubmitStep(cfg, input, x, fault, suffix)
        case WaitForJob => WaitStep(x)
        case PollJob => PollStep(cfg, x, fault)
        case EvaluateJob => EvaluateStep(x)
        case RequestSignoff => AskStep(x, fault, "token-" + suffix)
        case Finalize => FinalizeStep(x, fault)
        case _ => x
  }

  function RunAll(cfg: Config, input: Input, x: Execution, events: seq<Event>): Execution
    decreases |events|
  {
    if events == [] then x else RunAll(cfg, input, Step(cfg, input, x, events[0]), events[1..])
  }

  // ------------------------------------------------ the running execution

  class JobExecution {
    const handlers: Handlers
    const input: Input
    var at: Position
    var counters: Counters
    var job: JobDoc
    var asked: bool
    ghost var item: Option<Job>
    ghost var log: Log
    /** The job ids this execution has written to: its own, or those generated by submit_job. */
    ghost var touched: set<string>

    constructor (handlers: Handlers, input: Input)
      ensures this.handlers == handlers && this.input == input && Valid() && touched == {}
      ensures View() == Begin(Lookup(handlers.store.items, input.jobId))
    {
      this.handlers := handlers;
      this.input := input;
      at, counters, job, asked := At(SubmitJob), map[], NO_JOB, false;
      item := Lookup(handlers.store.items, input.jobId);
      log := Log([], 0, false, false);
      touched := {};
    }

    /** Once submitted, `item` is the record of the job the document names. */
    ghost predicate Valid()
      reads this, handlers, handlers.store
    {
      && (at.At? && !at.state.SubmitJob? && !at.state.JobFailed? ==>
            item == Lookup(handlers.store.items, job.jobId) && job.jobId in touched)
      && (input.jobId != "" ==> touched <= {input.jobId})
    }

    ghost function View(): Execution
      reads this
    {
      Execution(at, counters, job, asked, item, log)
    }

    /** No record outside `touched` has changed. */
    twostate predicate OthersKept()
      reads this, handlers, handlers.store
    {
      && old(touched) <= touched
      && forall id :: id !in touched ==> Lookup(handlers.store.items, id) == old(Lookup(handlers.store.items, id))
    }

    method Fail(s: StateName, e: ErrorName)
      requires s.SubmitJob? || s.PollJob? || s.RequestSignoff? || s.Finalize?
      requires Valid() && at == At(s)
      modifies this
      ensures Valid() && View() == React(old(View()), s, e) && touched == old(touched)
    {
      match OnError(Retriers(s), Catchers(s), counters, e)
      case RetryAfter(_, used) => counters := used;
      case CaughtBy(fallback) => at, counters := At(fallback.next), map[];
      case Uncaught => at := Failed(e);
    }

    method RunSubmit(fault: Fault, suffix: string)
      requires Valid() && at == At(SubmitJob)
      modifies this, handlers.store
      ensures Valid() && View() == SubmitStep(handlers.cfg, input, old(View()), fault, suffix)
      ensures OthersKept()
    {
      var reply := handlers.SubmitJob(input, fault, suffix);
      ghost var id := SubmittedId(input, suffix);
      var record := NewRecord(handlers.cfg, input);
      ThroughOne(old(item), record, fault);
      ThroughOne(old(Lookup(handlers.store.items, id)), record, fault);
      touched := touched + {id};
      if !(fault.Fault? && fault.after == 0) {
        item := Lookup(handlers.store.items, id);
      }
      if reply.Returned? {
        at, counters, job := At(WaitForJob), map[], reply.value;
      } else {
        Fail(SubmitJob, reply.error);
      }
    }

    method RunPoll(fault: Fault)
      requires Valid() && at == At(PollJob)
      modifies this, handlers.store
      ensures Valid() && View() == PollStep(handlers.cfg, old(View()), fault)
      ensures OthersKept()
    {
      var reply := handlers.PollJob(job.jobId, fault);
      item := Lookup(handlers.store.items, job.jobId);
      if reply.Returned? {
        at, counters, job := At(EvaluateJob), map[], reply.value;
      } else {
        Fail(PollJob, reply.error);
      }
    }

    method RunAsk(fault: Fault, suffix: string)
      requires Valid() && at == At(RequestSignoff)
      modifies this, handlers.store
      ensures Valid() && View() == AskStep(old(View()), fault, "token-" + suffix)
      ensures OthersKept()
    {
      if asked { return; }
      var reply := handlers.RequestSignoff(job.jobId, "token-" + suffix, fault);
      item := Lookup(handlers.store.items, job.jobId);
      if reply.Returned? { asked := true; } else { Fail(RequestSignoff, reply.error); }
    }

    method RunFinalize(fault: Fault)
      requires Valid() && at == At(Finalize)
      modifies this, handlers.store
      ensures Valid() && View() == FinalizeStep(old(View()), fault)
      ensures OthersKept()
    {
      var reply := handlers.Finalize(job.jobId, fault);
      item := Lookup(handlers.store.items, job.jobId);
      if reply.Returned? { at := Completed; } else { Fail(Finalize, reply.error); }
    }

    method Advance(fault: Fault, suffix: string)
      requires Valid() && !Halted(View())
      modifies this, handlers.store
      ensures Valid() && View() == Step(handlers.cfg, input, old(View()), Proceed(fault, suffix))
      ensures OthersKept()
    {
      match at.state
      case SubmitJob => RunSubmit(fault, suffix);
      case WaitForJob =>
        if job.nextPoll < 0 {
          at := Failed(OtherError("States.Runtime"));
        } else {
          at, counters := At(PollJob), map[];
          log := log.(waited := log.waited + job.nextPoll);
        }
      case PollJob => RunPoll(fault);
      case EvaluateJob =>
        log := log.(seen := log.seen + [job.attempt], succeeded := log.succeeded || job.status == SUCCEEDED);
        at, counters := At(Choose(job)), map[];
      case RequestSignoff => RunAsk(fault, suffix);
      case Finalize => RunFinalize(fault);
      case _ =>
    }

    method Handle(e: Event)
      requires Valid()
      modifies this, handlers.store
      ensures Valid() && View() == Step(handlers.cfg, input, old(View()), e)
      ensures OthersKept()
    {
      if !at.At? || at.state.JobFailed? || at.state.JobTimedOut? || at.state.SignoffTimedOut? {
        return;
      }
      match e
      case ExecutionTimeout => at := TimedOut;
      case Proceed(fault, suffix) => Advance(fault, suffix);
      case SignoffReply(error) =>
        if at == At(RequestSignoff) {
          if error.None? {
            at, counters := At(Finalize), map[];
            log := log.(approved := true);
          } else {
            Fail(RequestSignoff, error.value);
          }
        }
    }

    method Run(events: seq<Event>)
      requires Valid()
      modifies this, handlers.store
      ensures Valid() && View() == RunAll(handlers.cfg, input, old(View()), events)
      ensures OthersKept()
    {
      var i := 0;
      while i < |events|
        invariant 0 <= i <= |events| && Valid()
        invariant RunAll(handlers.cfg, input, View(), events[i..]) == RunAll(handlers.cfg, input, old(View()), events)
        invariant OthersKept()
      {
        assert events[i..][1..] == events[i + 1..];
        Handle(events[i]);
        i := i + 1;
      }
    }
  }
}
