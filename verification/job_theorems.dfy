/** The poll loop over all runs, lost replies included: attempts seen, poll budget, sign-off
    safety and monotone progress. */
module JobTheorems {
  import opened Integers
  import opened StatesLanguage
  import opened JobRecords
  import opened JobHandlers
  import opened JobWorkflow

  function Needed(input: Input): int {
    Max(1, input.succeedAfter)
  }

  /** Polls the budget allows: the first poll is always evaluated. */
  function Budget(cfg: Config): int {
    Max(1, cfg.maxAttempts)
  }

  // ------------------------------------------------ progress arithmetic

  lemma RoundMonotone(m: int, n: int, d: int)
    requires d > 0 && m <= n
    ensures RoundHalfEven(m, d) <= RoundHalfEven(n, d)
  {
    var p, q := m / d, n / d;
    assert m == p * d + m % d && n == q * d + n % d;
    if p > q {
      ProductGap(p, q, d);
      assert false;
    }
  }

  lemma {:induction false} ProductGap(p: int, q: int, d: int)
    requires d > 0 && p >= q + 1
    ensures p * d >= q * d + d
    decreases p - q
  {
    if p > q + 1 { ProductGap(p - 1, q, d); }
    assert p * d == (p - 1) * d + d;
  }

  lemma RawProgressBounds(a: int, n: int)
    requires a >= 0
    ensures 0 <= RawProgress(a, n) <= 100
  {
    var d := Max(n, 1);
    RoundMonotone(0, 100 * a, d);
    assert 0 / d == 0 && 0 % d == 0;
  }

  lemma RawProgressMonotone(a: int, b: int, n: int)
    requires a <= b
    ensures RawProgress(a, n) <= RawProgress(b, n)
  {
    RoundMonotone(100 * a, 100 * b, Max(n, 1));
  }

  /** A RUNNING poll shows 100 exactly when the quotient is at least 99.5, ties going to 100. */
  lemma RunningShows100Iff(a: int, n: int)
    requires 0 <= a < n
    ensures RawProgress(a, n) == 100 <==> 200 * (n - a) <= n
  {
    var q, r := 100 * a / n, 100 * a % n;
    assert 100 * a == q * n + r;
    if q >= 100 {
      ProductGap(q, 99, n);
      assert false;
    }
    if q <= 98 {
      ProductGap(99, q, n);
    } else {
      assert q == 99;
    }
  }

  /** 200 is the first value of succeed_after for which some RUNNING poll shows 100. */
  lemma First100WhileRunning(n: int)
    requires n >= 1
    ensures (exists a :: 0 <= a < n && RawProgress(a, n) == 100) <==> n >= 200
  {
    if n >= 200 {
      RunningShows100Iff(n - 1, n);
      assert 0 <= n - 1 < n && RawProgress(n - 1, n) == 100;
    } else {
      forall a | 0 <= a < n
        ensures RawProgress(a, n) != 100
      {
        RunningShows100Iff(a, n);
      }
    }
  }

  lemma PollProgressBounds(job: Job, a: int)
    requires a >= 0
    ensures 0 <= PollProgress(job, a) <= 100
  {
    RawProgressBounds(a, job.succeedAfter);
  }

  lemma PollProgressMonotone(job: Job, a: int, b: int)
    requires 0 <= a <= b
    ensures PollProgress(job, a) <= PollProgress(job, b)
  {
    RawProgressBounds(a, job.succeedAfter);
    RawProgressMonotone(a, b, job.succeedAfter);
  }

  // ------------------------------------------------ the invariant

  /** submit_job has been answered. */
  predicate Submitted(x: Execution) {
    x.at.At? && !x.at.state.SubmitJob? && !x.at.state.JobFailed?
  }

  ghost predicate Increasing(s: seq<int>) {
    forall i, j :: 0 <= i < j < |s| ==> s[i] < s[j]
  }

  /** The record carries the submitted settings and at least the attempts the document has seen. */
  ghost predicate RecordFits(input: Input, x: Execution) {
    && x.item.Some? && x.job.jobId != ""
    && x.item.value.succeedAfter == Needed(input) && x.item.value.failJob == input.failJob
    && 0 <= x.job.attempt <= x.item.value.attempts
    && 0 <= x.item.value.progress <= 100
    && x.item.value.progress <= PollProgress(x.item.value, x.item.value.attempts)
  }

  /** The polled document tells the truth about its attempt. */
  predicate PolledFits(cfg: Config, input: Input, j: JobDoc) {
    && j.attempt >= 1
    && j.status == (if input.failJob then FAILED else if j.attempt >= Needed(input) then SUCCEEDED else RUNNING)
    && j.exhausted == (j.status == RUNNING && j.attempt >= cfg.maxAttempts)
  }

  /** Attempts evaluated so far: increasing, from 1 on, up to `last`. */
  ghost predicate SeenUpTo(x: Execution, last: int) {
    && Increasing(x.log.seen)
    && |x.log.seen| <= last
    && forall i :: 0 <= i < |x.log.seen| ==> 1 <= x.log.seen[i] <= last
  }

  ghost predicate Looping(cfg: Config, input: Input, x: Execution) {
    && SeenUpTo(x, x.job.attempt)
    && !x.log.succeeded && !x.log.approved
    && (x.log.seen != [] ==> x.job.attempt < cfg.maxAttempts && x.job.attempt < Needed(input) && !input.failJob)
    && (x.log.seen == [] ==> x.job.attempt == 0)
  }

  /** `prior` is the item that the job id had before the execution. */
  ghost predicate Sound(cfg: Config, input: Input, prior: Option<Job>, x: Execution) {
    && Increasing(x.log.seen) && |x.log.seen| <= Budget(cfg)
    && (Submitted(x) ==> RecordFits(input, x))
    && (x.item.Some? && x.item.value.status == Some(COMPLETED) ==>
          (x.log.succeeded && x.log.approved) || (x.item == prior && !Submitted(x)))
    && match x.at
       case Completed => x.log.succeeded && x.log.approved && x.item.Some? && x.item.value.status == Some(COMPLETED)
       case Failed(_) => true
       case TimedOut => true
       case At(s) =>
         match s
         case SubmitJob => x.log.seen == [] && !x.log.succeeded && !x.log.approved && x.job == NO_JOB
         case WaitForJob => Looping(cfg, input, x)
         case PollJob => Looping(cfg, input, x)
         case EvaluateJob =>
           && PolledFits(cfg, input, x.job) && SeenUpTo(x, x.job.attempt - 1) && |x.log.seen| < Budget(cfg)
           && !x.log.succeeded && !x.log.approved
         case RequestSignoff => x.log.succeeded && !x.log.approved
         case Finalize => x.log.succeeded && x.log.approved
         case SignoffTimedOut => x.log.succeeded
         case JobTimedOut => !input.failJob && cfg.maxAttempts <= x.job.attempt < Needed(input)
         case _ => true
  }

  lemma ReactGoes(x: Execution, s: StateName, e: ErrorName)
    requires x.at == At(s)
    ensures var y := React(x, s, e);
            && y.item == x.item && y.log == x.log && y.job == x.job
            && (y.at == x.at || y.at == At(JobFailed) || y.at == At(SignoffTimedOut) || y.at == Failed(e))
  {
  }

  lemma SubmitKeeps(cfg: Config, input: Input, prior: Option<Job>, x: Execution, fault: Fault, suffix: string)
    requires Sound(cfg, input, prior, x) && x.at == At(SubmitJob)
    ensures Sound(cfg, input, prior, SubmitStep(cfg, input, x, fault, suffix))
  {
    ThroughOne(x.item, NewRecord(cfg, input), fault);
    var r := Submit(cfg, input, x.item, fault, suffix);
    if r.1.Raised? {
      ReactGoes(x.(item := r.0), SubmitJob, r.1.error);
    } else {
      PollProgressBounds(r.0.value, 0);
    }
  }

  /** What a poll attempt does to the record, however far it gets. */
  lemma PollWritesFit(cfg: Config, input: Input, x: Execution, fault: Fault)
    requires RecordFits(input, x) && x.item.value.status != Some(COMPLETED)
    ensures var r := Poll(cfg, x.job.jobId, x.item, fault);
            && RecordFits(input, x.(item := r.0)) && r.0.value.status != Some(COMPLETED)
            && r.0.value.progress >= x.item.value.progress
            && (r.1.Returned? ==>
                  && PolledFits(cfg, input, r.1.value)
                  && r.1.value.attempt == x.item.value.attempts + 1 == r.0.value.attempts
                  && r.1.value.jobId == x.job.jobId)
  {
    var job := x.item.value;
    var ws := PollWrites(job);
    ThroughTwo(x.item, ws[0], ws[1], fault);
    PollProgressMonotone(job, job.attempts, job.attempts + 1);
    PollProgressBounds(job, job.attempts + 1);
    var r := Poll(cfg, x.job.jobId, x.item, fault).0.value;
    assert r.succeedAfter == job.succeedAfter && r.failJob == job.failJob;
    assert PollProgress(r, job.attempts) == PollProgress(job, job.attempts);
    assert PollProgress(r, job.attempts + 1) == PollProgress(job, job.attempts + 1);
  }

  lemma PollKeeps(cfg: Config, input: Input, prior: Option<Job>, x: Execution, fault: Fault)
    requires Sound(cfg, input, prior, x) && x.at == At(PollJob)
    ensures Sound(cfg, input, prior, PollStep(cfg, x, fault))
  {
    PollWritesFit(cfg, input, x, fault);
    var r := Poll(cfg, x.job.jobId, x.item, fault);
    if r.1.Raised? { ReactGoes(x.(item := r.0), PollJob, r.1.error); }
  }

  lemma EvaluateKeeps(cfg: Config, input: Input, prior: Option<Job>, x: Execution)
    requires Sound(cfg, input, prior, x) && x.at == At(EvaluateJob)
    ensures Sound(cfg, input, prior, EvaluateStep(x))
  {
    var seen := x.log.seen + [x.job.attempt];
    assert forall i :: 0 <= i < |x.log.seen| ==> seen[i] == x.log.seen[i];
  }

  lemma GateKeeps(cfg: Config, input: Input, prior: Option<Job>, x: Execution, fault: Fault, token: string)
    requires Sound(cfg, input, prior, x) && x.at == At(RequestSignoff)
    ensures Sound(cfg, input, prior, AskStep(x, fault, token))
  {
    ThroughOne(x.item, AttachToken(token), fault);
    var r := WriteOnce(x.job.jobId, x.item, AttachToken(token), fault);
    assert PollProgress(r.0.value, x.item.value.attempts) == PollProgress(x.item.value, x.item.value.attempts);
    if r.1.Raised? { ReactGoes(x.(item := r.0), RequestSignoff, r.1.error); }
  }

  lemma FinalizeKeeps(cfg: Config, input: Input, prior: Option<Job>, x: Execution, fault: Fault)
    requires Sound(cfg, input, prior, x) && x.at == At(Finalize)
    ensures Sound(cfg, input, prior, FinalizeStep(x, fault))
  {
    ThroughOne(x.item, SetStatus(COMPLETED), fault);
    var r := WriteOnce(x.job.jobId, x.item, SetStatus(COMPLETED), fault);
    assert PollProgress(r.0.value, x.item.value.attempts) == PollProgress(x.item.value, x.item.value.attempts);
    if r.1.Raised? { ReactGoes(x.(item := r.0), Finalize, r.1.error); }
  }

  lemma StepKeeps(cfg: Config, input: Input, prior: Option<Job>, x: Execution, e: Event)
    requires Sound(cfg, input, prior, x)
    ensures Sound(cfg, input, prior, Step(cfg, input, x, e))
  {
    if !Halted(x) {
      match e
      case ExecutionTimeout =>
      case SignoffReply(error) =>
        if x.at == At(RequestSignoff) && error.Some? { ReactGoes(x, RequestSignoff, error.value); }
      case Proceed(fault, suffix) =>
        match x.at.state
        case SubmitJob => SubmitKeeps(cfg, input, prior, x, fault, suffix);
        case PollJob => PollKeeps(cfg, input, prior, x, fault);
        case EvaluateJob => EvaluateKeeps(cfg, input, prior, x);
        case RequestSignoff => GateKeeps(cfg, input, prior, x, fault, "token-" + suffix);
        case Finalize => FinalizeKeeps(cfg, input, prior, x, fault);
        case _ =>
    }
  }

  lemma {:induction false} RunKeeps(cfg: Config, input: Input, prior: Option<Job>, x: Execution, events: seq<Event>)
    requires Sound(cfg, input, prior, x)
    ensures Sound(cfg, input, prior, RunAll(cfg, input, x, events))
    decreases |events|
  {
    if events != [] {
      StepKeeps(cfg, input, prior, x, events[0]);
      RunKeeps(cfg, input, prior, Step(cfg, input, x, events[0]), events[1..]);
    }
  }

  // ------------------------------------------------ theorems

  /** Whatever record the job id had, and whatever replies are lost: the attempt numbers that
      EvaluateJob sees strictly increase, it is reached at most max(1, max_attempts) times, a job
      whose threshold is within the budget never exhausts it, and the record is COMPLETED only after
      a SUCCEEDED poll was evaluated and the sign-off token was answered with success, or because it
      was so before and this execution never got to write it. */
  lemma PollLoopIsBounded(cfg: Config, input: Input, prior: Option<Job>, events: seq<Event>)
    ensures var x := RunAll(cfg, input, Begin(prior), events);
            && Increasing(x.log.seen)
            && |x.log.seen| <= Max(1, cfg.maxAttempts)
            && (Max(1, input.succeedAfter) <= cfg.maxAttempts ==> x.at != At(JobTimedOut))
            && (x.item.Some? && x.item.value.status == Some(COMPLETED) ==>
                  (x.log.succeeded && x.log.approved) || (x.item == prior && !Submitted(x)))
            && (x.at == Completed ==>
                  x.log.succeeded && x.log.approved && x.item.Some? && x.item.value.status == Some(COMPLETED))
  {
    RunKeeps(cfg, input, prior, Begin(prior), events);
  }

  /** Once submitted, no event of any run lowers the stored progress, and it stays in 0..100. */
  lemma ProgressNeverFalls(cfg: Config, input: Input, prior: Option<Job>, events: seq<Event>, e: Event)
    ensures var x := RunAll(cfg, input, Begin(prior), events);
            var y := Step(cfg, input, x, e);
            Submitted(x) ==>
              x.item.Some? && y.item.Some? && 0 <= x.item.value.progress <= y.item.value.progress <= 100
  {
    RunKeeps(cfg, input, prior, Begin(prior), events);
    var x := RunAll(cfg, input, Begin(prior), events);
    if Submitted(x) && !Halted(x) && e.Proceed? {
      match x.at.state
      case PollJob =>
        PollWritesFit(cfg, input, x, e.fault);
        var r := Poll(cfg, x.job.jobId, x.item, e.fault);
        if r.1.Raised? { ReactGoes(x.(item := r.0), PollJob, r.1.error); }
      case RequestSignoff =>
        ThroughOne(x.item, AttachToken("token-" + e.suffix), e.fault);
        var r := WriteOnce(x.job.jobId, x.item, AttachToken("token-" + e.suffix), e.fault);
        if r.1.Raised? { ReactGoes(x.(item := r.0), RequestSignoff, r.1.error); }
      case Finalize =>
        ThroughOne(x.item, SetStatus(COMPLETED), e.fault);
        var r := WriteOnce(x.job.jobId, x.item, SetStatus(COMPLETED), e.fault);
        if r.1.Raised? { ReactGoes(x.(item := r.0), Finalize, r.1.error); }
      case _ =>
    }
  }

  /** A record that says RUNNING does not show 100. */
  predicate Below100(item: Option<Job>) {
    item.Some? && item.value.status == Some(RUNNING) ==> item.value.progress < 100
  }

  /** Nor does the record of this execution, once it has written one. */
  predicate KeepsBelow100(prior: Option<Job>, x: Execution) {
    Below100(x.item) || (x.item == prior && !Submitted(x))
  }

  lemma PollBelow100(cfg: Config, input: Input, x: Execution, fault: Fault)
    requires RecordFits(input, x) && Below100(x.item) && (Needed(input) < 200 || input.failJob)
    ensures Below100(Poll(cfg, x.job.jobId, x.item, fault).0)
  {
    var job := x.item.value;
    var a := job.attempts + 1;
    var ws := PollWrites(job);
    ThroughTwo(x.item, ws[0], ws[1], fault);
    RawProgressBounds(a, job.succeedAfter);
    if PollStatus(job, a) == RUNNING {
      First100WhileRunning(job.succeedAfter);
      assert 0 <= a < job.succeedAfter;
    }
  }

  lemma StepBelow100(cfg: Config, input: Input, prior: Option<Job>, x: Execution, e: Event)
    requires Sound(cfg, input, prior, x) && KeepsBelow100(prior, x) && (Needed(input) < 200 || input.failJob)
    ensures KeepsBelow100(prior, Step(cfg, input, x, e))
  {
    if !Halted(x) && e.Proceed? {
      match x.at.state
      case SubmitJob => ThroughOne(x.item, NewRecord(cfg, input), e.fault);
      case PollJob => PollBelow100(cfg, input, x, e.fault);
      case RequestSignoff => ThroughOne(x.item, AttachToken("token-" + e.suffix), e.fault);
      case Finalize => ThroughOne(x.item, SetStatus(COMPLETED), e.fault);
      case _ =>
    }
  }

  lemma {:induction false} RunBelow100(cfg: Config, input: Input, prior: Option<Job>, x: Execution, events: seq<Event>)
    requires Sound(cfg, input, prior, x) && KeepsBelow100(prior, x) && (Needed(input) < 200 || input.failJob)
    ensures KeepsBelow100(prior, RunAll(cfg, input, x, events))
    decreases |events|
  {
    if events != [] {
      StepKeeps(cfg, input, prior, x, events[0]);
      StepBelow100(cfg, input, prior, x, events[0]);
      RunBelow100(cfg, input, prior, Step(cfg, input, x, events[0]), events[1..]);
    }
  }

  /** In every run of a job that fails or has a threshold up to 199, the record never says RUNNING at
      100 percent, unless it is an earlier one that this execution never got to write. */
  lemma RunningStaysBelow100(cfg: Config, input: Input, prior: Option<Job>, events: seq<Event>)
    requires input.succeedAfter <= 199 || input.failJob
    ensures KeepsBelow100(prior, RunAll(cfg, input, Begin(prior), events))
  {
    RunBelow100(cfg, input, prior, Begin(prior), events);
  }
}
