/** The whole scheduled batch: Split, the Map over its shards, Reduce. Split and Reduce retry Lambda
    service errors and have no Catch, so any other error ends the execution. */
module BatchWorkflow {
  import opened StatesLanguage
  import opened BatchHandlers
  import opened BatchMap

  /** Retry of Split and Reduce. */
  const EDGE_RETRY := [Rule([Named(LambdaServiceException), Named(LambdaTooManyRequestsException),
                             Named(OtherError("Lambda.Unknown"))], RetryPolicy(2, 4, 2))]

  predicate Retriable(e: ErrorName) {
    e == LambdaServiceException || e == LambdaTooManyRequestsException || e == OtherError("Lambda.Unknown")
  }

  datatype BatchEnd = Summarised(summary: Summary) | Aborted(error: ErrorName)

  /** The attempt at or after `k` that settles Split or Reduce: the first to succeed or to fail with
      another error, or the fifth. */
  function SettledAt(script: Script, k: nat): nat
    decreases 4 - k
  {
    var o := Outcome(script, k);
    if k >= 4 || o.None? || !Retriable(o.value) then k else SettledAt(script, k + 1)
  }

  function TaskError(script: Script): Option<ErrorName> {
    Outcome(script, SettledAt(script, 0))
  }

  /** One of the first five attempts succeeds, after service errors only. */
  predicate Recovers(script: Script) {
    exists k :: 0 <= k <= 4 && Outcome(script, k).None? &&
      forall j :: 0 <= j < k ==> Outcome(script, j).Some? && Retriable(Outcome(script, j).value)
  }

  lemma {:induction false} SettledAtIs(script: Script, k: nat)
    requires k <= 4
    ensures var n := SettledAt(script, k);
            && k <= n <= 4
            && (forall j :: k <= j < n ==> Outcome(script, j).Some? && Retriable(Outcome(script, j).value))
            && (n == 4 || Outcome(script, n).None? || !Retriable(Outcome(script, n).value))
    decreases 4 - k
  {
    var o := Outcome(script, k);
    if k >= 4 || o.None? || !Retriable(o.value) {
    } else {
      SettledAtIs(script, k + 1);
    }
  }

  lemma SucceedsIff(script: Script)
    ensures TaskError(script).None? <==> Recovers(script)
  {
    SettledAtIs(script, 0);
    if Recovers(script) {
      var k :| 0 <= k <= 4 && Outcome(script, k).None? &&
        forall j :: 0 <= j < k ==> Outcome(script, j).Some? && Retriable(Outcome(script, j).value);
      var n := SettledAt(script, 0);
      assert n < k ==> Outcome(script, n).Some?;
    }
  }

  lemma EdgeError(counters: Counters, e: ErrorName)
    ensures OnError<string, ShardState>(EDGE_RETRY, [], counters, e) ==
      if Retriable(e) && Used(counters, 0) < 4 then
        RetryAfter(2 * Pow(2, Used(counters, 0)), counters[0 := Used(counters, 0) + 1])
      else Uncaught
  {
    assert Covers(EDGE_RETRY[0].errors, e) <==> Retriable(e);
  }

  /** Split or Reduce with its retries: the error that ends the execution, if any. */
  method RunTask(script: Script) returns (error: Option<ErrorName>, attempts: nat, waited: nat)
    ensures error == TaskError(script)
    ensures error.None? <==> Recovers(script)
    ensures attempts == SettledAt(script, 0) + 1 <= 5
    ensures waited == 2 * Pow(2, attempts - 1) - 2 <= 30
  {
    var counters: Counters := map[];
    attempts, waited := 1, 0;
    error := Outcome(script, 0);
    var settled := error.None?;
    while !settled
      invariant 1 <= attempts <= 5 && error == Outcome(script, attempts - 1)
      invariant settled ==> SettledAt(script, 0) == attempts - 1
      invariant SettledAt(script, 0) == SettledAt(script, attempts - 1)
      invariant !settled ==> error.Some?
      invariant Used(counters, 0) == attempts - 1
      invariant waited == 2 * Pow(2, attempts - 1) - 2
      decreases 5 - attempts, !settled
    {
      EdgeError(counters, error.value);
      match OnError<string, ShardState>(EDGE_RETRY, [], counters, error.value) {
        case RetryAfter(wait, used) =>
          assert Pow(2, attempts) == 2 * Pow(2, attempts - 1);
          counters, attempts, waited := used, attempts + 1, waited + wait;
          error := Outcome(script, attempts - 1);
          settled := error.None?;
        case CaughtBy(_) => settled := true;
        case Uncaught => settled := true;
      }
    }
    SucceedsIff(script);
    assert Pow(2, 4) == 2 * Pow(2, 3) == 4 * Pow(2, 2) == 8 * Pow(2, 1) == 16 * Pow(2, 0);
  }

  /** The whole batch, its Map driven by any schedule that keeps making progress: it ends with the
      summary of the sequential batch if and only if Split and Reduce recover, whatever the shards
      do; otherwise with the error that Split, or else Reduce, ended on. */
  method RunBatch(count: nat, source: string, split: Script, scripts: seq<Script>, reduce: Script,
                  limit: nat, schedule: seq<Action>)
    returns (end: BatchEnd)
    requires |scripts| == count
    requires Progress(Split(count, source), scripts, limit, Unstarted(count), schedule) >= 5 * count
    ensures end.Summarised? <==> Recovers(split) && Recovers(reduce)
    ensures end.Summarised? ==>
              && end.summary == Reduce(Sequential(Split(count, source), scripts))
              && end.summary.succeeded + end.summary.failed == count
              && end.summary.records == SHARD_SIZE * (count - end.summary.failed)
    ensures end.Aborted? ==> Some(end.error) == if !Recovers(split) then TaskError(split) else TaskError(reduce)
  {
    var error, _, _ := RunTask(split);
    if error.Some? {
      return Aborted(error.value);
    }
    var shards := Split(count, source);
    var m := new MapExecution(shards, limit);
    m.Run(schedule, scripts);
    MapRefinesSequential(count, source, scripts, limit, schedule);
    var failure, _, _ := RunTask(reduce);
    if failure.Some? {
      return Aborted(failure.value);
    }
    return Summarised(Reduce(Results(m.slots[..])));
  }
}
