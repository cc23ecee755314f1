/** Runs of the poll loop without faults: the exact number of polls, where the run ends up, and
    the closed form of the time spent waiting. */
module JobCleanRuns {
  import opened Integers
  import opened StatesLanguage
  import opened JobRecords
  import opened JobHandlers
  import opened JobWorkflow
  import opened JobTheorems

  /** Polls of a fault-free run. */
  function PollCount(cfg: Config, input: Input): int {
    if input.failJob then 1 else Min(Needed(input), Budget(cfg))
  }

  /** Where a fault-free run leaves the loop. */
  function LoopExit(cfg: Config, input: Input): StateName {
    if input.failJob then JobFailed else if Needed(input) <= Budget(cfg) then RequestSignoff else JobTimedOut
  }

  /** Seconds waited before the n-th poll. */
  function WaitSum(cfg: Config, n: nat): int {
    if n == 0 then 0 else WaitSum(cfg, n - 1) + BackoffSeconds(cfg, n - 1)
  }

  function UpTo(n: nat): (s: seq<int>)
    ensures |s| == n && forall i :: 0 <= i < n ==> s[i] == i + 1
  {
    if n == 0 then [] else UpTo(n - 1) + [n]
  }

  predicate Waitable(cfg: Config) {
    cfg.base >= 0 && cfg.cap >= 0
  }

  lemma BackoffNonNegative(cfg: Config, k: int)
    requires Waitable(cfg)
    ensures BackoffSeconds(cfg, k) >= 0
  {
    NonNegativeProduct(cfg.base, Pow(2, Max(0, k)));
  }

  lemma NonNegativeProduct(a: int, b: int)
    requires a >= 0 && b >= 0
    ensures a * b >= 0
  {
  }

  predicate Faultless(e: Event) {
    e.Proceed? && e.fault == NoFault
  }

  /** Between polls, after k of them. */
  ghost predicate AfterPolls(cfg: Config, input: Input, x: Execution, k: nat) {
    && x.at == At(WaitForJob) && k < PollCount(cfg, input)
    && x.job.jobId != "" && x.job.attempt == k && x.job.nextPoll == BackoffSeconds(cfg, k)
    && x.item.Some? && x.item.value.attempts == k
    && x.item.value.succeedAfter == Needed(input) && x.item.value.failJob == input.failJob
    && (k > 0 ==> x.item.value.status == Some(RUNNING) && x.item.value.progress == RawProgress(k, Needed(input)))
    && x.log.seen == UpTo(k) && x.log.waited == WaitSum(cfg, k)
  }

  /** Out of the loop, after all polls. */
  ghost predicate LeftLoop(cfg: Config, input: Input, x: Execution) {
    var n := PollCount(cfg, input);
    && x.at == At(LoopExit(cfg, input)) && n >= 1
    && x.log.seen == UpTo(n) && x.log.waited == WaitSum(cfg, n)
  }

  lemma CleanSubmit(cfg: Config, input: Input, prior: Option<Job>, suffix: string)
    ensures AfterPolls(cfg, input, Step(cfg, input, Begin(prior), Proceed(NoFault, suffix)), 0)
  {
    ThroughOne(prior, NewRecord(cfg, input), NoFault);
  }

  /** One turn of the loop: wait, poll, evaluate. */
  lemma CleanTurn(cfg: Config, input: Input, x: Execution, k: nat, a: string, b: string, c: string)
    requires Waitable(cfg) && AfterPolls(cfg, input, x, k)
    ensures var x1 := Step(cfg, input, x, Proceed(NoFault, a));
            var x2 := Step(cfg, input, x1, Proceed(NoFault, b));
            var y := Step(cfg, input, x2, Proceed(NoFault, c));
            if k + 1 < PollCount(cfg, input) then AfterPolls(cfg, input, y, k + 1) else LeftLoop(cfg, input, y)
  {
    BackoffNonNegative(cfg, k);
    var x1 := Step(cfg, input, x, Proceed(NoFault, a));
    assert x1.at == At(PollJob) && x1.log.waited == WaitSum(cfg, k + 1) && x1.item == x.item && x1.job == x.job;
    var x2 := Step(cfg, input, x1, Proceed(NoFault, b));
    CleanPoll(cfg, input, x1, b);
    var y := Step(cfg, input, x2, Proceed(NoFault, c));
    assert y.log.seen == UpTo(k) + [k + 1] == UpTo(k + 1);
  }

  lemma CleanPoll(cfg: Config, input: Input, x: Execution, suffix: string)
    requires x.at == At(PollJob) && x.job.jobId != "" && x.item.Some?
    ensures var y := Step(cfg, input, x, Proceed(NoFault, suffix));
            && y.at == At(EvaluateJob) && y.job == Polled(cfg, x.job.jobId, x.item.value) && y.log == x.log
            && y.item.Some? && y.item.value.attempts == x.item.value.attempts + 1
            && y.item.value.succeedAfter == x.item.value.succeedAfter && y.item.value.failJob == x.item.value.failJob
            && y.item.value.status == Some(y.job.status) && y.item.value.progress == y.job.progress
  {
    var ws := PollWrites(x.item.value);
    ThroughTwo(x.item, ws[0], ws[1], NoFault);
  }

  /** The gate is asked once and then waits; the two Fail states stay. */
  lemma {:induction false} CleanTail(cfg: Config, input: Input, x: Execution, events: seq<Event>)
    requires LeftLoop(cfg, input, x) && (x.at == At(RequestSignoff) ==> x.job.jobId != "")
    requires forall e :: e in events ==> Faultless(e)
    ensures LeftLoop(cfg, input, RunAll(cfg, input, x, events))
    decreases |events|
  {
    if events != [] {
      assert Faultless(events[0]);
      CleanTail(cfg, input, Step(cfg, input, x, events[0]), events[1..]);
    }
  }

  lemma {:induction false} CleanLoop(cfg: Config, input: Input, x: Execution, k: nat, events: seq<Event>)
    requires Waitable(cfg) && AfterPolls(cfg, input, x, k)
    requires |events| >= 3 * (PollCount(cfg, input) - k) && forall e :: e in events ==> Faultless(e)
    ensures LeftLoop(cfg, input, RunAll(cfg, input, x, events))
    decreases |events|
  {
    assert Faultless(events[0]) && Faultless(events[1]) && Faultless(events[2]);
    var x1 := Step(cfg, input, x, events[0]);
    var x2 := Step(cfg, input, x1, events[1]);
    var y := Step(cfg, input, x2, events[2]);
    CleanTurn(cfg, input, x, k, events[0].suffix, events[1].suffix, events[2].suffix);
    ThreeSteps(cfg, input, x, events);
    assert forall e :: e in events[3..] ==> e in events;
    if k + 1 < PollCount(cfg, input) {
      CleanLoop(cfg, input, y, k + 1, events[3..]);
    } else {
      CleanPoll(cfg, input, x1, events[1].suffix);
      assert y.job.jobId == x.job.jobId;
      CleanTail(cfg, input, y, events[3..]);
    }
  }

  lemma ThreeSteps(cfg: Config, input: Input, x: Execution, events: seq<Event>)
    requires |events| >= 3
    ensures var y := Step(cfg, input, Step(cfg, input, Step(cfg, input, x, events[0]), events[1]), events[2]);
            RunAll(cfg, input, x, events) == RunAll(cfg, input, y, events[3..])
  {
    assert events[1..][1..] == events[2..] && events[2..][1..] == events[3..];
    var x1 := Step(cfg, input, x, events[0]);
    assert RunAll(cfg, input, x1, events[1..]) == RunAll(cfg, input, Step(cfg, input, x1, events[1]), events[2..]);
  }

  /** A job without faults, new or submitted again, is polled exactly once if it is set to fail, and
      otherwise min(succeed_after, max(1, max_attempts)) times, each attempt evaluated once; it
      reaches the sign-off gate if and only if it does not fail and its threshold is within the
      budget; and before its n-th poll it has waited the sum of the first n backoff intervals. */
  lemma ExactPollCount(cfg: Config, input: Input, prior: Option<Job>, events: seq<Event>)
    requires Waitable(cfg)
    requires |events| >= 1 + 3 * PollCount(cfg, input) && forall e :: e in events ==> Faultless(e)
    ensures var x := RunAll(cfg, input, Begin(prior), events);
            var n := PollCount(cfg, input);
            && n == (if input.failJob then 1 else Min(Max(1, input.succeedAfter), Max(1, cfg.maxAttempts)))
            && x.log.seen == UpTo(n)
            && (x.at == At(RequestSignoff) <==> !input.failJob && Max(1, input.succeedAfter) <= Max(1, cfg.maxAttempts))
            && (x.at == At(JobFailed) <==> input.failJob)
            && x.log.waited == WaitSum(cfg, n)
  {
    assert Faultless(events[0]);
    CleanSubmit(cfg, input, prior, events[0].suffix);
    assert forall e :: e in events[1..] ==> e in events;
    CleanLoop(cfg, input, Step(cfg, input, Begin(prior), events[0]), 0, events[1..]);
  }

  // ------------------------------------------------ a record that says RUNNING at 100 percent

  lemma {:induction false} CleanTurns(cfg: Config, input: Input, x: Execution, k: nat, m: nat, events: seq<Event>)
    requires Waitable(cfg) && AfterPolls(cfg, input, x, k) && k <= m < PollCount(cfg, input)
    requires |events| == 3 * (m - k) && forall e :: e in events ==> Faultless(e)
    ensures AfterPolls(cfg, input, RunAll(cfg, input, x, events), m)
    decreases m - k
  {
    if k < m {
      assert Faultless(events[0]) && Faultless(events[1]) && Faultless(events[2]);
      CleanTurn(cfg, input, x, k, events[0].suffix, events[1].suffix, events[2].suffix);
      ThreeSteps(cfg, input, x, events);
      assert forall e :: e in events[3..] ==> e in events;
      var y := Step(cfg, input, Step(cfg, input, Step(cfg, input, x, events[0]), events[1]), events[2]);
      CleanTurns(cfg, input, y, k + 1, m, events[3..]);
    }
  }

  predicate ShowsRunningAt100(item: Option<Job>) {
    item.Some? && item.value.status == Some(RUNNING) && item.value.progress == 100
  }

  /** Every faultless run of a job with a threshold of 200 or more shows it, one poll before the end. */
  lemma LastPollShows100(cfg: Config, input: Input, prior: Option<Job>, events: seq<Event>)
    requires Waitable(cfg) && !input.failJob && 200 <= input.succeedAfter <= cfg.maxAttempts
    requires |events| == 1 + 3 * (input.succeedAfter - 1) && forall e :: e in events ==> Faultless(e)
    ensures ShowsRunningAt100(RunAll(cfg, input, Begin(prior), events).item)
  {
    var n := input.succeedAfter;
    assert Faultless(events[0]);
    CleanSubmit(cfg, input, prior, events[0].suffix);
    assert forall e :: e in events[1..] ==> e in events;
    CleanTurns(cfg, input, Step(cfg, input, Begin(prior), events[0]), 0, n - 1, events[1..]);
    RunningShows100Iff(n - 1, n);
  }

  function Faultlesses(n: nat): (events: seq<Event>)
    ensures |events| == n && forall e :: e in events ==> Faultless(e)
  {
    if n == 0 then [] else Faultlesses(n - 1) + [Proceed(NoFault, "")]
  }

  /** This run of a new job ends with such a record. */
  predicate EndsAt100(cfg: Config, input: Input, events: seq<Event>) {
    ShowsRunningAt100(RunAll(cfg, input, Begin(None), events).item)
  }

  /** Some run of a new job ends, under some configuration, with such a record if and only if the job
      does not fail and its threshold is at least 200. */
  lemma RunningAt100Iff(input: Input)
    ensures (exists cfg: Config, events: seq<Event> :: EndsAt100(cfg, input, events)) <==>
            !input.failJob && input.succeedAfter >= 200
  {
    if !input.failJob && input.succeedAfter >= 200 {
      var cfg := Config(30, 900, input.succeedAfter, 30);
      var events := Faultlesses(1 + 3 * (input.succeedAfter - 1));
      LastPollShows100(cfg, input, None, events);
      assert EndsAt100(cfg, input, events);
    } else {
      forall cfg: Config, events: seq<Event>
        ensures !EndsAt100(cfg, input, events)
      {
        RunningStaysBelow100(cfg, input, None, events);
      }
    }
  }

  // ------------------------------------------------ the waits in closed form

  /** The first poll interval that reaches the cap, or n when none before it does. */
  function CapIndex(cfg: Config, n: nat): (m: nat)
    ensures m <= n
    ensures forall k: nat :: k < m ==> cfg.base * Pow(2, k) < cfg.cap
    ensures m < n ==> cfg.base * Pow(2, m) >= cfg.cap
    decreases n
  {
    if n == 0 then 0
    else
      var m := CapIndex(cfg, n - 1);
      if m < n - 1 then m
      else if cfg.base * Pow(2, n - 1) < cfg.cap then n else n - 1
  }

  /** Doubling keeps an interval at the cap once it is there. */
  lemma {:induction false} StaysAtCap(cfg: Config, m: nat, k: nat)
    requires cfg.base >= 1 && m <= k && cfg.base * Pow(2, m) >= cfg.cap
    ensures cfg.base * Pow(2, k) >= cfg.cap
    decreases k
  {
    if m < k {
      StaysAtCap(cfg, m, k - 1);
      NonNegativeProduct(cfg.base, Pow(2, k - 1));
      DoubleProduct(cfg.base, Pow(2, k - 1));
    }
  }

  function ClosedForm(base: int, cap: int, m: nat, n: int): int {
    base * Pow(2, m) - base + (n - m) * cap
  }

  lemma ClosedFormPlateau(base: int, cap: int, m: nat, n: int)
    ensures ClosedForm(base, cap, m, n) == ClosedForm(base, cap, m, n - 1) + cap
  {
    assert (n - m) * cap == (n - 1 - m) * cap + cap;
  }

  lemma ClosedFormDoubles(base: int, cap: int, n: nat)
    requires n >= 1
    ensures ClosedForm(base, cap, n, n) == ClosedForm(base, cap, n - 1, n - 1) + base * Pow(2, n - 1)
  {
    DoubleProduct(base, Pow(2, n - 1));
  }

  lemma CapStep(cfg: Config, n: nat)
    requires cfg.base >= 1 && n >= 1
    ensures var m := CapIndex(cfg, n - 1);
            if m == n - 1 && cfg.base * Pow(2, n - 1) < cfg.cap
            then CapIndex(cfg, n) == n && BackoffSeconds(cfg, n - 1) == cfg.base * Pow(2, n - 1)
            else CapIndex(cfg, n) == m && BackoffSeconds(cfg, n - 1) == cfg.cap
  {
    var m := CapIndex(cfg, n - 1);
    if m < n - 1 {
      StaysAtCap(cfg, m, n - 1);
    }
  }

  /** sum of min(cap, base * 2^k) over k < n == base * (2^m - 1) + (n - m) * cap. */
  lemma {:induction false} WaitClosedForm(cfg: Config, n: nat)
    requires cfg.base >= 1 && cfg.cap >= 1
    ensures WaitSum(cfg, n) == ClosedForm(cfg.base, cfg.cap, CapIndex(cfg, n), n)
  {
    if n == 0 {
      ClosedFormAtZero(cfg.base, cfg.cap);
    } else {
      WaitClosedForm(cfg, n - 1);
      CapStep(cfg, n);
      if CapIndex(cfg, n) == n {
        ClosedFormDoubles(cfg.base, cfg.cap, n);
      } else {
        ClosedFormPlateau(cfg.base, cfg.cap, CapIndex(cfg, n), n);
      }
    }
  }

  lemma ClosedFormAtZero(base: int, cap: int)
    ensures ClosedForm(base, cap, 0, 0) == 0
  {
    assert Pow(2, 0) == 1;
  }

  /** Each wait is at most the cap and at least the one before. */
  lemma WaitsGrow(cfg: Config, k: nat)
    requires cfg.base >= 1 && cfg.cap >= 1
    ensures 1 <= BackoffSeconds(cfg, k) <= BackoffSeconds(cfg, k + 1) <= cfg.cap
  {
    DoubleProduct(cfg.base, Pow(2, k));
    PositiveProduct(cfg.base, Pow(2, k));
  }

  lemma PositiveProduct(a: int, b: int)
    requires a >= 1 && b >= 1
    ensures a * b >= 1
  {
  }
}
