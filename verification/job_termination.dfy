/** The poll loop is left in every run, whatever replies are lost: a bound on the turns of the
    state machine before a terminal state or the sign-off gate. */
module JobTermination {
  import opened Integers
  import opened StatesLanguage
  import opened JobRecords
  import opened JobHandlers
  import opened JobWorkflow
  import opened JobTheorems

  /** Submitting or polling. */
  predicate InLoop(x: Execution) {
    x.at == At(SubmitJob) || x.at == At(WaitForJob) || x.at == At(PollJob) || x.at == At(EvaluateJob)
  }

  /** Turns of the state machine that can still pass inside the loop: 5 attempts of SubmitJob, then
      per evaluated poll one Wait, 5 attempts of PollJob and one EvaluateJob. */
  function TurnsLeft(cfg: Config, x: Execution): int {
    var polls := Budget(cfg) - |x.log.seen|;
    if x.at == At(SubmitJob) then 7 * Budget(cfg) + 1 + RetriesLeft(LAMBDA_RETRY, x.counters)
    else if x.at == At(WaitForJob) then 7 * polls
    else if x.at == At(PollJob) then 7 * polls - 5 + RetriesLeft(LAMBDA_RETRY, x.counters)
    else if x.at == At(EvaluateJob) then 7 * polls - 6
    else 0
  }

  lemma FreshRetries()
    ensures RetriesLeft(LAMBDA_RETRY, map[]) == 4
  {
    assert RetriesLeft(LAMBDA_RETRY, map[], 1) == 0;
  }

  lemma TurnsArePositive(cfg: Config, input: Input, prior: Option<Job>, x: Execution)
    requires Sound(cfg, input, prior, x) && InLoop(x)
    ensures TurnsLeft(cfg, x) > 0
  {
  }

  /** A failed attempt uses up a retry or leaves the loop. */
  lemma RaiseTakesTurn(cfg: Config, x: Execution, s: StateName, e: ErrorName)
    requires x.at == At(s) && (s.SubmitJob? || s.PollJob?)
    ensures var y := React(x, s, e);
            !InLoop(y) || TurnsLeft(cfg, y) == TurnsLeft(cfg, x) - 1
  {
    ReactGoes(x, s, e);
    if OnError(Retriers(s), Catchers(s), x.counters, e).RetryAfter? {
      RetrySpendsBudget(Retriers(s), Catchers(s), x.counters, e);
    } else {
      assert Covers(Catchers(s)[0].errors, e);
    }
  }

  lemma StepTakesTurn(cfg: Config, input: Input, prior: Option<Job>, x: Execution, e: Event)
    requires Sound(cfg, input, prior, x) && InLoop(x) && !e.SignoffReply?
    ensures var y := Step(cfg, input, x, e);
            !InLoop(y) || TurnsLeft(cfg, y) < TurnsLeft(cfg, x)
  {
    FreshRetries();
    if e.Proceed? {
      match x.at.state
      case SubmitJob =>
        var r := Submit(cfg, input, x.item, e.fault, e.suffix);
        if r.1.Raised? { RaiseTakesTurn(cfg, x.(item := r.0), SubmitJob, r.1.error); }
      case PollJob =>
        var r := Poll(cfg, x.job.jobId, x.item, e.fault);
        if r.1.Raised? { RaiseTakesTurn(cfg, x.(item := r.0), PollJob, r.1.error); }
      case _ =>
    }
  }

  /** No edge leads back into the loop. */
  lemma StaysOut(cfg: Config, input: Input, x: Execution, e: Event)
    requires !InLoop(x)
    ensures !InLoop(Step(cfg, input, x, e))
  {
    if !Halted(x) {
      match e
      case ExecutionTimeout =>
      case SignoffReply(error) =>
        if x.at == At(RequestSignoff) && error.Some? { ReactGoes(x, RequestSignoff, error.value); }
      case Proceed(fault, suffix) =>
        match x.at.state
        case RequestSignoff =>
          var r := WriteOnce(x.job.jobId, x.item, AttachToken("token-" + suffix), fault);
          if r.1.Raised? { ReactGoes(x.(item := r.0), RequestSignoff, r.1.error); }
        case Finalize =>
          var r := WriteOnce(x.job.jobId, x.item, SetStatus(COMPLETED), fault);
          if r.1.Raised? { ReactGoes(x.(item := r.0), Finalize, r.1.error); }
        case _ =>
    }
  }

  /** Events that are a turn of the state machine; a sign-off reply outside the gate is not. */
  function Turns(events: seq<Event>): nat {
    if events == [] then 0 else (if events[0].SignoffReply? then 0 else 1) + Turns(events[1..])
  }

  lemma {:induction false} TurnsRunOut(cfg: Config, input: Input, prior: Option<Job>, x: Execution, events: seq<Event>)
    requires Sound(cfg, input, prior, x)
    ensures !InLoop(x) || Turns(events) >= TurnsLeft(cfg, x) ==> !InLoop(RunAll(cfg, input, x, events))
    decreases |events|
  {
    if events == [] {
      if InLoop(x) { TurnsArePositive(cfg, input, prior, x); }
    } else {
      StepKeeps(cfg, input, prior, x, events[0]);
      if !InLoop(x) {
        StaysOut(cfg, input, x, events[0]);
      } else if !events[0].SignoffReply? {
        StepTakesTurn(cfg, input, prior, x, events[0]);
      }
      TurnsRunOut(cfg, input, prior, Step(cfg, input, x, events[0]), events[1..]);
    }
  }

  /** Every run leaves the loop within 5 + 7 * max(1, max_attempts) turns, and stays out, whatever
      record the job id had before. */
  lemma LoopAlwaysEnds(cfg: Config, input: Input, prior: Option<Job>, events: seq<Event>)
    requires Turns(events) >= 5 + 7 * Max(1, cfg.maxAttempts)
    ensures var x := RunAll(cfg, input, Begin(prior), events);
            Halted(x) || x.at == At(RequestSignoff) || x.at == At(Finalize)
  {
    FreshRetries();
    TurnsRunOut(cfg, input, prior, Begin(prior), events);
  }
}
