/** submit_job, poll_job, request_signoff and finalize, with the backoff and progress formulas. */
module JobHandlers {
  import opened Integers
  import opened StatesLanguage
  import opened JobRecords

  /** POLL_INTERVAL_BASE_SECONDS, POLL_INTERVAL_MAX_SECONDS, MAX_POLL_ATTEMPTS and
      JOB_STATE_TTL_DAYS. */
  datatype Config = Config(base: int, cap: int, maxAttempts: int, ttlDays: int)

  /** The execution input, with the documented default already read for a missing field. */
  datatype Input = Input(jobId: string, succeedAfter: int, failJob: bool, payload: string)

  /** The `job` object of the execution document. */
  datatype JobDoc = JobDoc(jobId: string, status: Status, attempt: int, exhausted: bool, progress: int, nextPoll: int)

  datatype Reply<T> = Returned(value: T) | Raised(error: ErrorName)

  /** Seconds before poll number attempt + 1. */
  function BackoffSeconds(cfg: Config, attempt: int): int {
    Min(cfg.cap, cfg.base * Pow(2, Max(0, attempt)))
  }

  /** n / d rounded to the nearest integer, ties to the even one (roundTiesToEven, section 4.3.1
      of IEEE 754-2019, on the exact quotient). */
  function RoundHalfEven(n: int, d: int): int
    requires d > 0
  {
    var q, r := n / d, n % d;
    if 2 * r < d then q else if 2 * r > d then q + 1 else if q % 2 == 0 then q else q + 1
  }

  function RawProgress(attempt: int, succeedAfter: int): int {
    Min(100, RoundHalfEven(100 * attempt, Max(succeedAfter, 1)))
  }

  function PollStatus(job: Job, attempt: int): Status {
    if job.failJob then FAILED else if attempt >= job.succeedAfter then SUCCEEDED else RUNNING
  }

  function PollProgress(job: Job, attempt: int): int {
    if PollStatus(job, attempt) == SUCCEEDED then 100 else RawProgress(attempt, job.succeedAfter)
  }

  function Polled(cfg: Config, id: string, job: Job): JobDoc {
    var attempt := job.attempts + 1;
    var status := PollStatus(job, attempt);
    JobDoc(id, status, attempt, status == RUNNING && attempt >= cfg.maxAttempts,
           PollProgress(job, attempt), BackoffSeconds(cfg, attempt))
  }

  function PollWrites(job: Job): seq<Write> {
    [IncrementAttempt, UpdateProgress(PollStatus(job, job.attempts + 1), PollProgress(job, job.attempts + 1))]
  }

  /** A reply reaches Step Functions only without a fault. */
  function Delivered<T>(fault: Fault, value: T): Reply<T> {
    if fault.Fault? then Raised(fault.error) else Returned(value)
  }

  /** poll_job as Step Functions and the table see it. */
  function Poll(cfg: Config, id: string, item: Option<Job>, fault: Fault): (Option<Job>, Reply<JobDoc>) {
    if id == "" || item.None? then (item, Raised(if fault.Fault? then fault.error else JobNotFoundError))
    else (Through(item, PollWrites(item.value), fault), Delivered(fault, Polled(cfg, id, item.value)))
  }

  function SubmittedId(input: Input, suffix: string): (id: string)
    ensures id != ""
  {
    if input.jobId != "" then input.jobId else "job-" + suffix
  }

  function Submitted(cfg: Config, id: string): JobDoc {
    JobDoc(id, RUNNING, 0, false, 0, BackoffSeconds(cfg, 0))
  }

  /** The record that submit_job creates. */
  function NewRecord(cfg: Config, input: Input): Write {
    Create(Max(1, input.succeedAfter), input.failJob, input.payload, Positive(Some(cfg.ttlDays * 24 * 60 * 60)))
  }

  /** submit_job, on the item of the job id it uses. */
  function Submit(cfg: Config, input: Input, item: Option<Job>, fault: Fault, suffix: string)
    : (Option<Job>, Reply<JobDoc>)
  {
    (Through(item, [NewRecord(cfg, input)], fault),
     Delivered(fault, Submitted(cfg, SubmittedId(input, suffix))))
  }

  /** request_signoff and finalize: one write to the item, given a job id. */
  function WriteOnce(id: string, item: Option<Job>, w: Write, fault: Fault): (Option<Job>, Reply<()>) {
    if id == "" then (item, Raised(if fault.Fault? then fault.error else JobNotFoundError))
    else (Through(item, [w], fault), Delivered(fault, ()))
  }

  /** request_signoff refuses an empty token as it refuses a missing job id. */
  function Signoff(id: string, item: Option<Job>, token: string, fault: Fault): (Option<Job>, Reply<()>) {
    if token == "" then (item, Raised(if fault.Fault? then fault.error else JobNotFoundError))
    else WriteOnce(id, item, AttachToken(token), fault)
  }

  lemma ThroughOne(item: Option<Job>, w: Write, fault: Fault)
    ensures Through(item, [w], fault) == if fault.Fault? && fault.after == 0 then item else Apply(item, w)
  {
    assert [w][1..] == [];
  }

  lemma ThroughTwo(item: Option<Job>, a: Write, b: Write, fault: Fault)
    ensures Through(item, [a, b], fault) ==
      if fault.Fault? && fault.after == 0 then item
      else if fault.Fault? && fault.after == 1 then Apply(item, a) else Apply(Apply(item, a), b)
  {
    assert [a, b][1..] == [b];
    ThroughOne(Apply(item, a), b, Later(fault));
  }

  // ------------------------------------------------ the handlers

  class Handlers {
    const store: JobStore
    const cfg: Config

    constructor (store: JobStore, cfg: Config)
      ensures this.store == store && this.cfg == cfg
    {
      this.store := store;
      this.cfg := cfg;
    }

    method SubmitJob(input: Input, fault: Fault, suffix: string) returns (reply: Reply<JobDoc>)
      modifies store
      ensures var id := SubmittedId(input, suffix);
              (Lookup(store.items, id), reply) == Submit(cfg, input, old(Lookup(store.items, id)), fault, suffix) &&
              store.OnlyChanges(id)
    {
      store.fault := fault;
      var id := if input.jobId != "" then input.jobId else "job-" + suffix;
      var succeedAfter := input.succeedAfter;
      if succeedAfter < 1 { succeedAfter := 1; }
      var lifetime := None;
      if cfg.ttlDays > 0 { lifetime := Some(cfg.ttlDays * 24 * 60 * 60); }
      var record := Create(succeedAfter, input.failJob, input.payload, lifetime);
      ThroughOne(Lookup(store.items, id), record, fault);
      var raised := store.Send(id, record);
      var nextPoll := BackoffSeconds(cfg, 0);
      reply := Returned(JobDoc(id, RUNNING, 0, false, 0, nextPoll));
      if store.fault.Fault? { reply := Raised(store.fault.error); }
    }

    method PollJob(id: string, fault: Fault) returns (reply: Reply<JobDoc>)
      modifies store
      ensures (Lookup(store.items, id), reply) == Poll(cfg, id, old(Lookup(store.items, id)), fault)
      ensures store.OnlyChanges(id)
    {
      store.fault := fault;
      reply := Raised(JobNotFoundError);
      if id != "" && id in store.items {
        reply := PollRecord(id, store.items[id]);
      }
      if store.fault.Fault? { reply := Raised(store.fault.error); }
    }

    /** poll_job after the record has been read. */
    method PollRecord(id: string, record: Job) returns (reply: Reply<JobDoc>)
      requires Lookup(store.items, id) == Some(record)
      modifies store
      ensures Lookup(store.items, id) == Through(Some(record), PollWrites(record), old(store.fault))
      ensures store.fault.Fault? <==> old(store.fault).Fault?
      ensures store.fault.Fault? ==> store.fault.error == old(store.fault).error
      ensures store.fault == NoFault ==> reply == Returned(Polled(cfg, id, record))
      ensures store.OnlyChanges(id)
    {
      var writes := PollWrites(record);
      ThroughTwo(Some(record), writes[0], writes[1], store.fault);
      var raised := store.Send(id, IncrementAttempt);
      if raised.Some? { return Raised(raised.value); }
      var attempt := store.items[id].attempts;
      var status := RUNNING;
      if record.failJob {
        status := FAILED;
      } else if attempt >= record.succeedAfter {
        status := SUCCEEDED;
      }
      var progress := RawProgress(attempt, record.succeedAfter);
      if status == SUCCEEDED { progress := 100; }
      var exhausted := status == RUNNING && attempt >= cfg.maxAttempts;
      raised := store.Send(id, UpdateProgress(status, progress));
      if raised.Some? { return Raised(raised.value); }
      return Returned(JobDoc(id, status, attempt, exhausted, progress, BackoffSeconds(cfg, attempt)));
    }

    method RequestSignoff(id: string, token: string, fault: Fault) returns (reply: Reply<()>)
      modifies store
      ensures (Lookup(store.items, id), reply) == Signoff(id, old(Lookup(store.items, id)), token, fault)
      ensures store.OnlyChanges(id)
    {
      store.fault := fault;
      reply := Raised(JobNotFoundError);
      if id != "" && token != "" {
        ThroughOne(Lookup(store.items, id), AttachToken(token), fault);
        var raised := store.Send(id, AttachToken(token));
        reply := Returned(());
      }
      if store.fault.Fault? { reply := Raised(store.fault.error); }
    }

    method Finalize(id: string, fault: Fault) returns (reply: Reply<()>)
      modifies store
      ensures (Lookup(store.items, id), reply) ==
                WriteOnce(id, old(Lookup(store.items, id)), SetStatus(COMPLETED), fault)
      ensures store.OnlyChanges(id)
    {
      store.fault := fault;
      reply := Raised(JobNotFoundError);
      if id != "" {
        ThroughOne(Lookup(store.items, id), SetStatus(COMPLETED), fault);
        var raised := store.Send(id, SetStatus(COMPLETED));
        reply := Returned(());
      }
      if store.fault.Fault? { reply := Raised(store.fault.error); }
    }
  }
}
