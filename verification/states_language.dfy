/** The parts of the Amazon States Language that every workflow here relies on: error-name
    matching, ordered Retry and Catch lists, and the retry counters of one state execution.
    See "Retrying after error", "Fallback states" and "Complex retry scenarios" in the
    Amazon States Language specification. */
module StatesLanguage {

  datatype Option<+T> = None | Some(value: T)

  /** A number of seconds that is stored only when there is one and it is positive. */
  function Positive(seconds: Option<int>): Option<int> {
    if seconds.Some? && seconds.value > 0 then seconds else None
  }

  datatype ErrorName =
    | SagaTransientError
    | SagaBusinessError
    | JobNotFoundError
    | ClientError
    | LambdaServiceException
    | LambdaAWSLambdaException
    | LambdaSdkClientException
    | LambdaTooManyRequestsException
    | ApprovalRejected
    | StatesTimeout
    | OtherError(name: string)

  /** One entry of an ErrorEquals array. */
  datatype Pattern = AllErrors | TaskFailed | Named(error: ErrorName)

  /** States.ALL matches everything, States.TaskFailed everything but States.Timeout. */
  predicate Covers(patterns: seq<Pattern>, e: ErrorName) {
    AllErrors in patterns || (TaskFailed in patterns && !e.StatesTimeout?) || Named(e) in patterns
  }

  /** A Retrier or a Catcher: an ErrorEquals array and what to do on a match. */
  datatype Rule<A> = Rule(errors: seq<Pattern>, action: A)

  datatype RetryPolicy = RetryPolicy(interval: nat, maxAttempts: nat, rate: nat)

  datatype Fallback<P, N> = Fallback(resultPath: P, next: N)

  /** Index of the first rule at or after `i` that covers `e`: the scan order of the interpreter. */
  function FirstRule<A>(rules: seq<Rule<A>>, e: ErrorName, i: nat := 0): (r: Option<nat>)
    requires i <= |rules|
    ensures r.Some? ==> i <= r.value < |rules| && Covers(rules[r.value].errors, e)
    ensures r.Some? ==> forall k :: i <= k < r.value ==> !Covers(rules[k].errors, e)
    ensures r.None? ==> forall k :: i <= k < |rules| ==> !Covers(rules[k].errors, e)
    decreases |rules| - i
  {
    if i == |rules| then None
    else if Covers(rules[i].errors, e) then Some(i)
    else FirstRule(rules, e, i + 1)
  }

  /** Retries already used, per retrier index, in the current state execution. */
  type Counters = map<nat, nat>

  function Used(counters: Counters, i: nat): nat {
    if i in counters then counters[i] else 0
  }

  datatype Verdict<P, N> =
    | RetryAfter(wait: nat, counters: Counters)
    | CaughtBy(fallback: Fallback<P, N>)
    | Uncaught

  function Pow(b: nat, e: nat): (r: nat)
    ensures b >= 1 ==> r >= 1
  {
    if e == 0 then 1 else
      assert b >= 1 ==> b * Pow(b, e - 1) >= 1;
      b * Pow(b, e - 1)
  }

  /** What the interpreter does when a Task attempt reports `e`: only the first matching
      Retrier is consulted; once it is spent, the Catchers are scanned in order. */
  function OnError<P, N>(retriers: seq<Rule<RetryPolicy>>, catchers: seq<Rule<Fallback<P, N>>>,
                         counters: Counters, e: ErrorName): Verdict<P, N>
  {
    var r := FirstRule(retriers, e);
    if r.Some? && Used(counters, r.value) < retriers[r.value].action.maxAttempts then
      var p := retriers[r.value].action;
      var used := Used(counters, r.value);
      RetryAfter(p.interval * Pow(p.rate, used), counters[r.value := used + 1])
    else
      var c := FirstRule(catchers, e);
      if c.Some? then CaughtBy(catchers[c.value].action) else Uncaught
  }

  /** The four Lambda service errors. */
  predicate ServiceError(e: ErrorName) {
    e.LambdaServiceException? || e.LambdaAWSLambdaException? || e.LambdaSdkClientException? ||
    e.LambdaTooManyRequestsException?
  }

  /** The Lambda service errors that every workflow here retries, as an ErrorEquals array. */
  const LAMBDA_ERRORS := [Named(LambdaServiceException), Named(LambdaAWSLambdaException),
                          Named(LambdaSdkClientException), Named(LambdaTooManyRequestsException)]

  /** One Retrier, or one Catcher, for every error. */
  function RetryAll(interval: nat, maxAttempts: nat): seq<Rule<RetryPolicy>> {
    [Rule([AllErrors], RetryPolicy(interval, maxAttempts, 2))]
  }

  function CatchAll<P, N>(path: P, next: N): seq<Rule<Fallback<P, N>>> {
    [Rule([AllErrors], Fallback(path, next))]
  }

  /** What the environment does to one Lambda invocation: nothing, or the invocation gets through
      `after` store writes and is then reported to Step Functions as `error`. */
  datatype Fault = NoFault | Fault(after: nat, error: ErrorName)

  // ------------------------------------------------------------- retry budgets

  /** Seconds one Retrier can still spend waiting when it has been used `used` times. */
  function WaitsLeft(p: RetryPolicy, used: nat): nat
    decreases p.maxAttempts - used
  {
    if used >= p.maxAttempts then 0 else p.interval * Pow(p.rate, used) + WaitsLeft(p, used + 1)
  }

  /** Retries that the retriers from index `i` on can still grant. */
  function RetriesLeft(retriers: seq<Rule<RetryPolicy>>, counters: Counters, i: nat := 0): nat
    requires i <= |retriers|
    decreases |retriers| - i
  {
    if i == |retriers| then 0 else
      var max := retriers[i].action.maxAttempts;
      (if Used(counters, i) < max then max - Used(counters, i) else 0) + RetriesLeft(retriers, counters, i + 1)
  }

  /** Seconds of waiting that the retriers from index `i` on can still cause. */
  function TotalWaitLeft(retriers: seq<Rule<RetryPolicy>>, counters: Counters, i: nat := 0): nat
    requires i <= |retriers|
    decreases |retriers| - i
  {
    if i == |retriers| then 0 else
      WaitsLeft(retriers[i].action, Used(counters, i)) + TotalWaitLeft(retriers, counters, i + 1)
  }

  /** Using retrier `r` once takes exactly one retry and its wait out of the budgets. */
  lemma {:induction false} SpendOne(retriers: seq<Rule<RetryPolicy>>, counters: Counters, r: nat, i: nat)
    requires i <= |retriers| && r < |retriers|
    requires Used(counters, r) < retriers[r].action.maxAttempts
    ensures var p := retriers[r].action;
            var counters' := counters[r := Used(counters, r) + 1];
            RetriesLeft(retriers, counters', i) == RetriesLeft(retriers, counters, i) - (if i <= r then 1 else 0) &&
            TotalWaitLeft(retriers, counters', i) ==
              TotalWaitLeft(retriers, counters, i) - (if i <= r then p.interval * Pow(p.rate, Used(counters, r)) else 0)
    decreases |retriers| - i
  {
    if i < |retriers| {
      SpendOne(retriers, counters, r, i + 1);
    }
  }

  /** The retry budgets of a state execution are a variant: every retry strictly spends one
      retry and exactly its own wait, so retries and waits are bounded by the initial budgets. */
  lemma RetrySpendsBudget<P, N>(retriers: seq<Rule<RetryPolicy>>, catchers: seq<Rule<Fallback<P, N>>>,
                                counters: Counters, e: ErrorName)
    requires OnError(retriers, catchers, counters, e).RetryAfter?
    ensures var v := OnError(retriers, catchers, counters, e);
            RetriesLeft(retriers, v.counters) == RetriesLeft(retriers, counters) - 1 &&
            TotalWaitLeft(retriers, v.counters) == TotalWaitLeft(retriers, counters) - v.wait
  {
    SpendOne(retriers, counters, FirstRule(retriers, e).value, 0);
  }

  /** Doubling waits sum to a closed form: interval * (2^max - 2^used). */
  lemma {:induction false} DoublingWaits(p: RetryPolicy, used: nat)
    requires p.rate == 2 && used <= p.maxAttempts
    ensures WaitsLeft(p, used) == p.interval * Pow(2, p.maxAttempts) - p.interval * Pow(2, used)
    decreases p.maxAttempts - used
  {
    if used < p.maxAttempts {
      DoublingWaits(p, used + 1);
      DoubleProduct(p.interval, Pow(2, used));
    }
  }

  lemma DoubleProduct(a: int, b: int)
    ensures a * (2 * b) == a * b + a * b
  {
  }
}
