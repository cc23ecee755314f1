/** What one step of the long-running workflow means, in the terms of its definition: which errors are
    retried, where each state leads, and what record and document then hold. */
module JobReactions {
  import opened Integers
  import opened StatesLanguage
  import opened JobRecords
  import opened JobHandlers
  import opened JobWorkflow
  import opened JobTheorems

  // ------------------------------------------------ errors

  lemma LambdaRule(e: ErrorName)
    ensures FirstRule(LAMBDA_RETRY, e) == if ServiceError(e) then Some(0) else None
  {
    assert Covers(LAMBDA_RETRY[0].errors, e) <==> ServiceError(e);
  }

  /** A failed attempt of SubmitJob or PollJob is retried four times on the four Lambda service errors;
      everything else leads to JobFailed. */
  lemma TaskErrors(x: Execution, s: StateName, e: ErrorName)
    requires x.at == At(s) && (s.SubmitJob? || s.PollJob?)
    ensures var a := Used(x.counters, 0);
            React(x, s, e) ==
              if ServiceError(e) && a < 4 then x.(counters := x.counters[0 := a + 1])
              else x.(at := At(JobFailed), counters := map[])
    ensures OnError(Retriers(s), Catchers(s), x.counters, e) ==
              if ServiceError(e) && Used(x.counters, 0) < 4 then
                RetryAfter(2 * Pow(2, Used(x.counters, 0)), x.counters[0 := Used(x.counters, 0) + 1])
              else CaughtBy(Fallback("$.error", JobFailed))
  {
    LambdaRule(e);
    assert Covers(Catchers(s)[0].errors, e);
  }

  /** An error at the sign-off gate is not retried: the gate's timeout leads to SignoffTimedOut, every
      other error to JobFailed. */
  lemma GateErrors(x: Execution, e: ErrorName)
    requires x.at == At(RequestSignoff)
    ensures React(x, RequestSignoff, e) ==
              x.(at := At(if e == StatesTimeout then SignoffTimedOut else JobFailed), counters := map[])
  {
    var cs := Catchers(RequestSignoff);
    assert Covers(cs[0].errors, e) <==> e == StatesTimeout;
    assert Covers(cs[1].errors, e);
    assert FirstRule(cs, e) == if e == StatesTimeout then Some(0) else Some(1);
  }

  /** Finalize is retried three times on any error, and nothing catches it. */
  lemma FinalizeErrors(x: Execution, e: ErrorName)
    requires x.at == At(Finalize)
    ensures React(x, Finalize, e) ==
              if Used(x.counters, 0) < 3 then x.(counters := x.counters[0 := Used(x.counters, 0) + 1])
              else x.(at := Failed(e))
    ensures Used(x.counters, 0) < 3 ==>
              OnError(Retriers(Finalize), Catchers(Finalize), x.counters, e) ==
                RetryAfter(2 * Pow(2, Used(x.counters, 0)), x.counters[0 := Used(x.counters, 0) + 1])
  {
    assert Covers(Retriers(Finalize)[0].errors, e);
  }

  // ------------------------------------------------ handlers

  /** What a poll that gets through returns and stores: the next attempt number, FAILED for a failing
      job, SUCCEEDED and 100 percent from the threshold on, and before it RUNNING with the rounded
      percentage; a FAILED poll shows that percentage, too. */
  lemma PollReports(cfg: Config, id: string, j: Job)
    requires id != ""
    ensures var (after, reply) := Poll(cfg, id, Some(j), NoFault);
            var a := j.attempts + 1;
            var percent := Min(100, RoundHalfEven(100 * a, Max(j.succeedAfter, 1)));
            && reply.Returned? && reply.value.jobId == id && reply.value.attempt == a
            && after == Some(j.(attempts := a, status := Some(reply.value.status), progress := reply.value.progress))
            && reply.value.nextPoll == Min(cfg.cap, cfg.base * Pow(2, a))
            && (if j.failJob then reply.value.status == FAILED && reply.value.progress == percent
                else if a >= j.succeedAfter then reply.value.status == SUCCEEDED && reply.value.progress == 100
                else reply.value.status == RUNNING && reply.value.progress == percent)
            && (reply.value.exhausted <==> !j.failJob && a < j.succeedAfter && a >= cfg.maxAttempts)
  {
    var ws := PollWrites(j);
    ThroughTwo(Some(j), ws[0], ws[1], NoFault);
  }

  /** How far poll_job gets under a fault: nothing, the attempt alone, or everything; the reply is lost in
      each case, so the next poll sees a higher attempt. */
  lemma PollInterrupted(cfg: Config, id: string, j: Job, n: nat, e: ErrorName)
    requires id != ""
    ensures var (after, reply) := Poll(cfg, id, Some(j), Fault(n, e));
            && reply == Raised(e)
            && after == (if n == 0 then Some(j)
                         else if n == 1 then Some(j.(attempts := j.attempts + 1))
                         else Poll(cfg, id, Some(j), NoFault).0)
  {
    var ws := PollWrites(j);
    ThroughTwo(Some(j), ws[0], ws[1], Fault(n, e));
    ThroughTwo(Some(j), ws[0], ws[1], NoFault);
  }

  /** submit_job, request_signoff and finalize write once: not at all, or in full before the reply is lost. */
  lemma OneWriteInterrupted(cfg: Config, input: Input, id: string, item: Option<Job>, w: Write, n: nat, e: ErrorName,
                            suffix: string)
    requires id != ""
    ensures WriteOnce(id, item, w, Fault(n, e)) ==
              (if n == 0 then item else WriteOnce(id, item, w, NoFault).0, Raised(e))
    ensures Submit(cfg, input, item, Fault(n, e), suffix) ==
              (if n == 0 then item else Submit(cfg, input, item, NoFault, suffix).0, Raised(e))
  {
    ThroughOne(item, w, Fault(n, e));
    ThroughOne(item, w, NoFault);
    ThroughOne(item, NewRecord(cfg, input), Fault(n, e));
    ThroughOne(item, NewRecord(cfg, input), NoFault);
  }

  /** Polling without a job id, or without a record, raises and writes nothing. */
  lemma PollWithoutRecord(cfg: Config, id: string, item: Option<Job>)
    requires id == "" || item.None?
    ensures Poll(cfg, id, item, NoFault) == (item, Raised(JobNotFoundError))
  {
  }

  /** What submit_job returns and stores. */
  lemma SubmitReports(cfg: Config, input: Input, item: Option<Job>, suffix: string)
    ensures var (after, reply) := Submit(cfg, input, item, NoFault, suffix);
            && reply == Returned(JobDoc(if input.jobId != "" then input.jobId else "job-" + suffix,
                                        RUNNING, 0, false, 0, Min(cfg.cap, cfg.base)))
            && after == Some(Job(Some(SUBMITTED), 0, 0, if input.succeedAfter < 1 then 1 else input.succeedAfter,
                                 input.failJob, None, input.payload,
                                 if cfg.ttlDays > 0 then Some(cfg.ttlDays * 86400) else None))
  {
    ThroughOne(item, NewRecord(cfg, input), NoFault);
    assert Pow(2, 0) == 1 && cfg.base * 1 == cfg.base;
  }

  /** A wait of a negative number of seconds is an error of the interpreter; any other leads to PollJob. */
  lemma Waits(cfg: Config, input: Input, x: Execution, fault: Fault, suffix: string)
    requires x.at == At(WaitForJob)
    ensures var y := Step(cfg, input, x, Proceed(fault, suffix));
            && y.at == (if x.job.nextPoll < 0 then Failed(OtherError("States.Runtime")) else At(PollJob))
            && y.item == x.item && y.job == x.job
            && (x.job.nextPoll >= 0 ==> y.log.waited == x.log.waited + x.job.nextPoll)
  {
  }

  /** request_signoff stores the token of its task and nothing else; the execution then waits at the
      gate and does not ask again. */
  lemma SignoffIsAsked(cfg: Config, input: Input, x: Execution, suffix: string)
    requires x.at == At(RequestSignoff) && !x.asked && x.job.jobId != "" && x.item.Some?
    ensures var y := Step(cfg, input, x, Proceed(NoFault, suffix));
            && y.at == x.at && y.asked && y.job == x.job
            && y.item == Some(x.item.value.(token := Some("token-" + suffix)))
            && Step(cfg, input, y, Proceed(NoFault, suffix)) == y
  {
    ThroughOne(x.item, AttachToken("token-" + suffix), NoFault);
  }

  // ------------------------------------------------ the gate

  /** After any run: a failing reply at the gate, or a failing request_signoff attempt, leads to
      SignoffTimedOut if and only if it reports States.Timeout, and otherwise to JobFailed; a successful
      reply leads to Finalize, which stores COMPLETED and completes the execution. */
  lemma GateReplies(cfg: Config, input: Input, prior: Option<Job>, events: seq<Event>, e: ErrorName, after: nat,
                    suffix: string)
    ensures var x := RunAll(cfg, input, Begin(prior), events);
            x.at == At(RequestSignoff) ==>
              && Step(cfg, input, x, SignoffReply(Some(e))).at ==
                   At(if e == StatesTimeout then SignoffTimedOut else JobFailed)
              && (!x.asked ==>
                    Step(cfg, input, x, Proceed(Fault(after, e), suffix)).at ==
                      At(if e == StatesTimeout then SignoffTimedOut else JobFailed))
              && var y := Step(cfg, input, x, SignoffReply(None));
                 var z := Step(cfg, input, y, Proceed(NoFault, suffix));
                 && y.at == At(Finalize) && z.at == Completed
                 && x.item.Some? && z.item == Some(x.item.value.(status := Some(COMPLETED)))
  {
    RunKeeps(cfg, input, prior, Begin(prior), events);
    var x := RunAll(cfg, input, Begin(prior), events);
    if x.at == At(RequestSignoff) {
      GateErrors(x, e);
      ThroughOne(x.item, SetStatus(COMPLETED), NoFault);
      if !x.asked { FailedAsk(cfg, input, x, e, after, suffix); }
    }
  }

  lemma FailedAsk(cfg: Config, input: Input, x: Execution, e: ErrorName, after: nat, suffix: string)
    requires x.at == At(RequestSignoff) && !x.asked
    ensures Step(cfg, input, x, Proceed(Fault(after, e), suffix)).at ==
              At(if e == StatesTimeout then SignoffTimedOut else JobFailed)
  {
    var r := WriteOnce(x.job.jobId, x.item, AttachToken("token-" + suffix), Fault(after, e));
    GateErrors(x.(item := r.0), e);
  }

  // ------------------------------------------------ what the history of a run records

  /** Some event of the run answers the gate's token with success. */
  predicate TokenAnswered(cfg: Config, input: Input, x: Execution, events: seq<Event>)
    decreases |events|
  {
    events != [] &&
    ((x.at == At(RequestSignoff) && events[0] == SignoffReply(None)) ||
     TokenAnswered(cfg, input, Step(cfg, input, x, events[0]), events[1..]))
  }

  /** Some event of the run makes EvaluateJob see a poll that SUCCEEDED. */
  predicate SuccessSeen(cfg: Config, input: Input, x: Execution, events: seq<Event>)
    decreases |events|
  {
    events != [] &&
    ((x.at == At(EvaluateJob) && events[0].Proceed? && x.job.status == SUCCEEDED) ||
     SuccessSeen(cfg, input, Step(cfg, input, x, events[0]), events[1..]))
  }

  /** Some event of the run ends the gate with States.Timeout. */
  predicate GateTimedOut(cfg: Config, input: Input, x: Execution, events: seq<Event>)
    decreases |events|
  {
    events != [] &&
    ((x.at == At(RequestSignoff) &&
      (events[0] == SignoffReply(Some(StatesTimeout)) ||
       (events[0].Proceed? && !x.asked && events[0].fault.Fault? && events[0].fault.error == StatesTimeout))) ||
     GateTimedOut(cfg, input, Step(cfg, input, x, events[0]), events[1..]))
  }

  lemma StepHistory(cfg: Config, input: Input, x: Execution, e: Event)
    ensures var y := Step(cfg, input, x, e);
            && (y.log.approved <==> x.log.approved || (x.at == At(RequestSignoff) && e == SignoffReply(None)))
            && (y.log.succeeded <==>
                  x.log.succeeded || (x.at == At(EvaluateJob) && e.Proceed? && x.job.status == SUCCEEDED))
            && (y.at == At(SignoffTimedOut) && x.at != y.at ==>
                  && x.at == At(RequestSignoff)
                  && (e == SignoffReply(Some(StatesTimeout)) ||
                      (e.Proceed? && !x.asked && e.fault.Fault? && e.fault.error == StatesTimeout) ||
                      x.job.jobId == ""))
  {
    if !Halted(x) {
      match e
      case ExecutionTimeout =>
      case SignoffReply(error) =>
        if x.at == At(RequestSignoff) && error.Some? { GateErrors(x, error.value); }
      case Proceed(fault, suffix) => ProceedHistory(cfg, input, x, fault, suffix);
    }
  }

  lemma ProceedHistory(cfg: Config, input: Input, x: Execution, fault: Fault, suffix: string)
    requires !Halted(x)
    ensures var y := Step(cfg, input, x, Proceed(fault, suffix));
            && y.log.approved == x.log.approved
            && (y.log.succeeded <==> x.log.succeeded || (x.at == At(EvaluateJob) && x.job.status == SUCCEEDED))
            && (y.at == At(SignoffTimedOut) ==>
                  && x.at == At(RequestSignoff)
                  && ((!x.asked && fault.Fault? && fault.error == StatesTimeout) || x.job.jobId == ""))
  {
    match x.at.state
    case SubmitJob =>
      var r := Submit(cfg, input, x.item, fault, suffix);
      if r.1.Raised? { TaskErrors(x.(item := r.0), SubmitJob, r.1.error); }
    case PollJob =>
      var r := Poll(cfg, x.job.jobId, x.item, fault);
      if r.1.Raised? { TaskErrors(x.(item := r.0), PollJob, r.1.error); }
    case RequestSignoff =>
      var r := WriteOnce(x.job.jobId, x.item, AttachToken("token-" + suffix), fault);
      if r.1.Raised? { GateErrors(x.(item := r.0), r.1.error); }
    case Finalize =>
      var r := WriteOnce(x.job.jobId, x.item, SetStatus(COMPLETED), fault);
      if r.1.Raised? { FinalizeErrors(x.(item := r.0), r.1.error); }
    case _ =>
  }

  lemma {:induction false} RunHistory(cfg: Config, input: Input, prior: Option<Job>, x: Execution, events: seq<Event>)
    requires Sound(cfg, input, prior, x)
    ensures var y := RunAll(cfg, input, x, events);
            && (y.log.approved <==> x.log.approved || TokenAnswered(cfg, input, x, events))
            && (y.log.succeeded <==> x.log.succeeded || SuccessSeen(cfg, input, x, events))
            && (y.at == At(SignoffTimedOut) ==> x.at == y.at || GateTimedOut(cfg, input, x, events))
            && (x.at == At(SignoffTimedOut) ==> y == x)
    decreases |events|
  {
    if events != [] {
      StepHistory(cfg, input, x, events[0]);
      StepKeeps(cfg, input, prior, x, events[0]);
      RunHistory(cfg, input, prior, Step(cfg, input, x, events[0]), events[1..]);
    }
  }

  /** Sign-off safety by the events themselves: the execution completes, or its record becomes COMPLETED,
      only after an event in which EvaluateJob saw a SUCCEEDED poll and one that answered the token with
      success; and it stands in SignoffTimedOut only after an event that ended the gate with
      States.Timeout, behind a SUCCEEDED poll. */
  lemma SignoffIsEarned(cfg: Config, input: Input, prior: Option<Job>, events: seq<Event>)
    ensures var x := RunAll(cfg, input, Begin(prior), events);
            && (x.at == Completed ||
                (&& x.item.Some? && x.item.value.status == Some(COMPLETED)
                 && (x.item != prior || JobTheorems.Submitted(x))) ==>
                  && SuccessSeen(cfg, input, Begin(prior), events)
                  && TokenAnswered(cfg, input, Begin(prior), events))
            && (x.at == At(SignoffTimedOut) ==>
                  && GateTimedOut(cfg, input, Begin(prior), events)
                  && SuccessSeen(cfg, input, Begin(prior), events))
  {
    RunKeeps(cfg, input, prior, Begin(prior), events);
    RunHistory(cfg, input, prior, Begin(prior), events);
  }
}
