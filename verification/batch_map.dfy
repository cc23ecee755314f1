/** The ProcessShards Map state: shards run concurrently under MaxConcurrency, each with its own
    Retry counters and Catch, and fill the result array in whatever order they finish. */
module BatchMap {
  import opened StatesLanguage
  import opened BatchHandlers

  /** Retry and Catch of ProcessShard. */
  const SHARD_RETRY := [Rule([TaskFailed, Named(LambdaServiceException), Named(LambdaTooManyRequestsException)],
                             RetryPolicy(3, 3, 2))]

  datatype ShardState = ShardFailed

  const SHARD_CATCH := CatchAll<string, ShardState>("$.error", ShardFailed)

  /** What the environment does to attempts 0, 1, ... of one shard: None lets it succeed. */
  type Script = seq<Option<ErrorName>>

  function Outcome(script: Script, k: nat): Option<ErrorName> {
    if k < |script| then script[k] else None
  }

  /** One iteration: not started, at attempt `attempt` after `waited` seconds of retry waits, or
      finished with its history. An iteration keeps its place while it waits for a retry. */
  datatype Slot =
    | Pending
    | Active(attempt: nat, counters: Counters, waited: nat)
    | Finished(result: Result, attempts: nat, waited: nat)

  datatype Action = Start(i: nat) | Attempt(i: nat)

  /** The next attempt of an active iteration returns. */
  function AfterAttempt(s: Shard, script: Script, slot: Slot): Slot
    requires slot.Active?
  {
    match Outcome(script, slot.attempt)
    case None => Finished(Process(s), slot.attempt + 1, slot.waited)
    case Some(e) =>
      match OnError(SHARD_RETRY, SHARD_CATCH, slot.counters, e)
      case RetryAfter(wait, counters) => Active(slot.attempt + 1, counters, slot.waited + wait)
      case CaughtBy(_) => Finished(Failed(s.id, e), slot.attempt + 1, slot.waited)
      case Uncaught => slot
  }

  function ActiveCount(slots: seq<Slot>): nat {
    if slots == [] then 0
    else ActiveCount(slots[..|slots| - 1]) + if slots[|slots| - 1].Active? then 1 else 0
  }

  /** MaxConcurrency 0 places no limit. */
  predicate Room(limit: nat, slots: seq<Slot>) {
    limit == 0 || ActiveCount(slots) < limit
  }

  predicate Enabled(limit: nat, slots: seq<Slot>, a: Action) {
    a.i < |slots| && (if a.Start? then slots[a.i].Pending? && Room(limit, slots) else slots[a.i].Active?)
  }

  /** One scheduling step; a step that is not enabled changes nothing. */
  function Step(shards: seq<Shard>, scripts: seq<Script>, limit: nat, slots: seq<Slot>, a: Action): (t: seq<Slot>)
    requires |shards| == |scripts| == |slots|
    ensures |t| == |slots|
  {
    if !Enabled(limit, slots, a) then slots
    else slots[a.i := if a.Start? then Active(0, map[], 0) else AfterAttempt(shards[a.i], scripts[a.i], slots[a.i])]
  }

  function RunAll(shards: seq<Shard>, scripts: seq<Script>, limit: nat, slots: seq<Slot>, schedule: seq<Action>)
    : (t: seq<Slot>)
    requires |shards| == |scripts| == |slots|
    ensures |t| == |slots|
    decreases |schedule|
  {
    if schedule == [] then slots
    else RunAll(shards, scripts, limit, Step(shards, scripts, limit, slots, schedule[0]), schedule[1..])
  }

  function Unstarted(n: nat): (slots: seq<Slot>)
    ensures |slots| == n && forall i :: 0 <= i < n ==> slots[i] == Pending
  {
    if n == 0 then [] else Unstarted(n - 1) + [Pending]
  }

  // ------------------------------------------------ the sequential batch

  /** The attempt at or after `k` that settles a shard run on its own: the first to succeed, to time
      out, or to be the fourth. */
  function LastAttempt(script: Script, k: nat): nat
    decreases 3 - k
  {
    var o := Outcome(script, k);
    if k >= 3 || o.None? || o.value.StatesTimeout? then k else LastAttempt(script, k + 1)
  }

  function SequentialResult(s: Shard, script: Script): Result {
    match Outcome(script, LastAttempt(script, 0))
    case None => Process(s)
    case Some(e) => Failed(s.id, e)
  }

  /** The batch with its shards processed one after the other. */
  function Sequential(shards: seq<Shard>, scripts: seq<Script>): (rs: seq<Result>)
    requires |shards| == |scripts|
    ensures |rs| == |shards|
  {
    if shards == [] then []
    else [SequentialResult(shards[0], scripts[0])] + Sequential(shards[1..], scripts[1..])
  }

  lemma {:induction false} SequentialAt(shards: seq<Shard>, scripts: seq<Script>, i: nat)
    requires |shards| == |scripts| && i < |shards|
    ensures Sequential(shards, scripts)[i] == SequentialResult(shards[i], scripts[i])
  {
    if i > 0 { SequentialAt(shards[1..], scripts[1..], i - 1); }
  }

  /** A shard fails exactly when one of its first four attempts times out with only failures before
      it, or all four fail. */
  lemma FailsIff(s: Shard, script: Script)
    ensures SequentialResult(s, script).Failed? <==>
      exists k :: 0 <= k <= 3 && Outcome(script, k).Some? && (k == 3 || Outcome(script, k).value.StatesTimeout?) &&
        forall j :: 0 <= j < k ==> Outcome(script, j).Some?
  {
    LastAttemptIs(script, 0);
    var k := LastAttempt(script, 0);
    if Outcome(script, k).Some? {
      assert k == 3 || Outcome(script, k).value.StatesTimeout?;
    }
  }

  lemma {:induction false} LastAttemptIs(script: Script, k: nat)
    requires k <= 3
    ensures var n := LastAttempt(script, k);
            && k <= n <= 3
            && (forall j :: k <= j < n ==> Outcome(script, j).Some? && !Outcome(script, j).value.StatesTimeout?)
            && (n == 3 || Outcome(script, n).None? || Outcome(script, n).value.StatesTimeout?)
    decreases 3 - k
  {
    var o := Outcome(script, k);
    if k >= 3 || o.None? || o.value.StatesTimeout? {
    } else {
      LastAttemptIs(script, k + 1);
    }
  }

  // ------------------------------------------------ one shard, however it is interleaved

  /** The slot is on the way to, or at, the sequential result. */
  predicate Agrees(s: Shard, script: Script, slot: Slot) {
    match slot
    case Pending => true
    case Active(k, counters, waited) =>
      && k <= 3 && Used(counters, 0) == k && waited == 3 * Pow(2, k) - 3
      && LastAttempt(script, k) == LastAttempt(script, 0)
    case Finished(result, attempts, waited) =>
      var k := LastAttempt(script, 0);
      result == SequentialResult(s, script) && attempts == k + 1 && waited == 3 * Pow(2, k) - 3
  }

  lemma ShardError(counters: Counters, e: ErrorName)
    ensures OnError(SHARD_RETRY, SHARD_CATCH, counters, e) ==
      if !e.StatesTimeout? && Used(counters, 0) < 3 then
        RetryAfter(3 * Pow(2, Used(counters, 0)), counters[0 := Used(counters, 0) + 1])
      else CaughtBy(Fallback("$.error", ShardFailed))
  {
    assert Covers(SHARD_RETRY[0].errors, e) <==> !e.StatesTimeout?;
    assert Covers(SHARD_CATCH[0].errors, e);
  }

  lemma AttemptAgrees(s: Shard, script: Script, slot: Slot)
    requires slot.Active? && Agrees(s, script, slot)
    ensures Agrees(s, script, AfterAttempt(s, script, slot))
    ensures AfterAttempt(s, script, slot).Active? ==> AfterAttempt(s, script, slot).attempt == slot.attempt + 1
    ensures !AfterAttempt(s, script, slot).Pending?
  {
    var o := Outcome(script, slot.attempt);
    if o.Some? {
      ShardError(slot.counters, o.value);
      var k := slot.attempt;
      assert Pow(2, k + 1) == 2 * Pow(2, k);
    }
  }

  // ------------------------------------------------ all shards, every schedule

  predicate Inv(shards: seq<Shard>, scripts: seq<Script>, limit: nat, slots: seq<Slot>) {
    && |shards| == |scripts| == |slots|
    && (forall i :: 0 <= i < |slots| ==> Agrees(shards[i], scripts[i], slots[i]))
    && (limit > 0 ==> ActiveCount(slots) <= limit)
  }

  lemma {:induction false} CountUpdate(slots: seq<Slot>, i: nat, slot: Slot)
    requires i < |slots|
    ensures ActiveCount(slots[i := slot]) ==
      ActiveCount(slots) - (if slots[i].Active? then 1 else 0) + if slot.Active? then 1 else 0
  {
    var n := |slots| - 1;
    if i < n {
      CountUpdate(slots[..n], i, slot);
      assert slots[i := slot][..n] == slots[..n][i := slot];
    } else {
      assert slots[i := slot][..n] == slots[..n];
    }
  }

  lemma StepKeeps(shards: seq<Shard>, scripts: seq<Script>, limit: nat, slots: seq<Slot>, a: Action)
    requires Inv(shards, scripts, limit, slots)
    ensures Inv(shards, scripts, limit, Step(shards, scripts, limit, slots, a))
  {
    if Enabled(limit, slots, a) {
      if a.Start? {
        CountUpdate(slots, a.i, Active(0, map[], 0));
      } else {
        AttemptAgrees(shards[a.i], scripts[a.i], slots[a.i]);
        CountUpdate(slots, a.i, AfterAttempt(shards[a.i], scripts[a.i], slots[a.i]));
      }
    }
  }

  lemma {:induction false} RunKeeps(shards: seq<Shard>, scripts: seq<Script>, limit: nat, slots: seq<Slot>,
                                    schedule: seq<Action>)
    requires Inv(shards, scripts, limit, slots)
    ensures Inv(shards, scripts, limit, RunAll(shards, scripts, limit, slots, schedule))
    decreases |schedule|
  {
    if schedule != [] {
      StepKeeps(shards, scripts, limit, slots, schedule[0]);
      RunKeeps(shards, scripts, limit, Step(shards, scripts, limit, slots, schedule[0]), schedule[1..]);
    }
  }

  lemma {:induction false} UnstartedIsFine(shards: seq<Shard>, scripts: seq<Script>, limit: nat)
    requires |shards| == |scripts|
    ensures Inv(shards, scripts, limit, Unstarted(|shards|)) && ActiveCount(Unstarted(|shards|)) == 0
  {
    NoneActive(Unstarted(|shards|));
  }

  lemma {:induction false} NoneActive(slots: seq<Slot>)
    requires forall i :: 0 <= i < |slots| ==> !slots[i].Active?
    ensures ActiveCount(slots) == 0
  {
    if slots != [] { NoneActive(slots[..|slots| - 1]); }
  }

  /** Under every schedule at most MaxConcurrency shards are active, and a finished shard holds its
      sequential result after at most 4 attempts and 21 seconds of retry waits. */
  lemma EverySlotIsSequential(shards: seq<Shard>, scripts: seq<Script>, limit: nat, schedule: seq<Action>, i: nat)
    requires |shards| == |scripts| && i < |shards|
    ensures var slots := RunAll(shards, scripts, limit, Unstarted(|shards|), schedule);
            && (limit > 0 ==> ActiveCount(slots) <= limit)
            && (slots[i].Finished? ==>
                  slots[i].result == Sequential(shards, scripts)[i] && slots[i].attempts <= 4 && slots[i].waited <= 21)
  {
    UnstartedIsFine(shards, scripts, limit);
    RunKeeps(shards, scripts, limit, Unstarted(|shards|), schedule);
    SequentialAt(shards, scripts, i);
    LastAttemptIs(scripts[i], 0);
    PowUpToThree(LastAttempt(scripts[i], 0));
  }

  lemma PowUpToThree(k: nat)
    requires k <= 3
    ensures Pow(2, k) <= 8
  {
    assert Pow(2, 1) == 2 * Pow(2, 0);
    assert Pow(2, 2) == 2 * Pow(2, 1);
    assert Pow(2, 3) == 2 * Pow(2, 2);
  }

  // ------------------------------------------------ every schedule that keeps going finishes

  predicate AllFinished(slots: seq<Slot>) {
    forall i :: 0 <= i < |slots| ==> slots[i].Finished?
  }

  /** Steps an iteration can still take. */
  function Remaining(slot: Slot): nat {
    match slot
    case Pending => 5
    case Active(k, _, _) => if k <= 3 then 4 - k else 0
    case Finished(_, _, _) => 0
  }

  function TotalRemaining(slots: seq<Slot>): nat {
    if slots == [] then 0 else TotalRemaining(slots[..|slots| - 1]) + Remaining(slots[|slots| - 1])
  }

  lemma {:induction false} RemainingUpdate(slots: seq<Slot>, i: nat, slot: Slot)
    requires i < |slots|
    ensures TotalRemaining(slots[i := slot]) == TotalRemaining(slots) - Remaining(slots[i]) + Remaining(slot)
  {
    var n := |slots| - 1;
    if i < n {
      RemainingUpdate(slots[..n], i, slot);
      assert slots[i := slot][..n] == slots[..n][i := slot];
    } else {
      assert slots[i := slot][..n] == slots[..n];
    }
  }

  /** Scheduling steps that advance an iteration, or come when all have finished. */
  function Progress(shards: seq<Shard>, scripts: seq<Script>, limit: nat, slots: seq<Slot>, schedule: seq<Action>): nat
    requires |shards| == |scripts| == |slots|
    decreases |schedule|
  {
    if schedule == [] then 0
    else
      (if AllFinished(slots) || Enabled(limit, slots, schedule[0]) then 1 else 0) +
      Progress(shards, scripts, limit, Step(shards, scripts, limit, slots, schedule[0]), schedule[1..])
  }

  lemma StepAdvances(shards: seq<Shard>, scripts: seq<Script>, limit: nat, slots: seq<Slot>, a: Action)
    requires Inv(shards, scripts, limit, slots)
    ensures var t := Step(shards, scripts, limit, slots, a);
            if Enabled(limit, slots, a) then TotalRemaining(t) < TotalRemaining(slots) else t == slots
  {
    if Enabled(limit, slots, a) {
      var next := if a.Start? then Active(0, map[], 0) else AfterAttempt(shards[a.i], scripts[a.i], slots[a.i]);
      RemainingUpdate(slots, a.i, next);
      if !a.Start? { AttemptAgrees(shards[a.i], scripts[a.i], slots[a.i]); }
    }
  }

  lemma {:induction false} NoneRemaining(shards: seq<Shard>, scripts: seq<Script>, slots: seq<Slot>)
    requires |shards| == |scripts| == |slots| && TotalRemaining(slots) == 0
    requires forall i :: 0 <= i < |slots| ==> Agrees(shards[i], scripts[i], slots[i])
    ensures AllFinished(slots)
  {
    if slots != [] {
      var n := |slots| - 1;
      NoneRemaining(shards[..n], scripts[..n], slots[..n]);
      assert Agrees(shards[n], scripts[n], slots[n]);
      forall i | 0 <= i < |slots| ensures slots[i].Finished? {
        if i < n { assert slots[..n][i] == slots[i]; }
      }
    }
  }

  lemma {:induction false} ProgressFinishes(shards: seq<Shard>, scripts: seq<Script>, limit: nat, slots: seq<Slot>,
                                            schedule: seq<Action>)
    requires Inv(shards, scripts, limit, slots)
    ensures AllFinished(slots) || Progress(shards, scripts, limit, slots, schedule) >= TotalRemaining(slots) ==>
              AllFinished(RunAll(shards, scripts, limit, slots, schedule))
    decreases |schedule|
  {
    if schedule == [] {
      if TotalRemaining(slots) == 0 { NoneRemaining(shards, scripts, slots); }
    } else {
      StepAdvances(shards, scripts, limit, slots, schedule[0]);
      StepKeeps(shards, scripts, limit, slots, schedule[0]);
      ProgressFinishes(shards, scripts, limit, Step(shards, scripts, limit, slots, schedule[0]), schedule[1..]);
    }
  }

  lemma {:induction false} UnstartedRemaining(n: nat)
    ensures TotalRemaining(Unstarted(n)) == 5 * n
  {
    if n > 0 {
      UnstartedRemaining(n - 1);
      assert Unstarted(n)[..n - 1] == Unstarted(n - 1);
    }
  }

  /** A shard that waits starts as soon as the limit leaves room, and only then. */
  lemma StartsWithRoom(shards: seq<Shard>, scripts: seq<Script>, limit: nat, slots: seq<Slot>, i: nat)
    requires |shards| == |scripts| == |slots| && i < |slots| && slots[i] == Pending
    ensures Step(shards, scripts, limit, slots, Start(i)) ==
              if limit == 0 || ActiveCount(slots) < limit then slots[i := Active(0, map[], 0)] else slots
  {
  }

  /** The result of shard i carries its number; a shard that succeeds has processed 1000 records, one
      that fails carries the error that ended it. */
  lemma ResultFields(count: nat, source: string, scripts: seq<Script>, i: nat)
    requires |scripts| == count && i < count
    ensures var r := Sequential(Split(count, source), scripts)[i];
            && r.id == i && (r.Succeeded? ==> r.processed == 1000)
            && (r.Failed? ==> Outcome(scripts[i], LastAttempt(scripts[i], 0)) == Some(r.error))
  {
    SequentialAt(Split(count, source), scripts, i);
    ShardFields(count, source, i);
  }

  /** Until all have finished some step is enabled: the concurrency limit cannot block the batch. */
  lemma NeverStuck(shards: seq<Shard>, scripts: seq<Script>, limit: nat, slots: seq<Slot>)
    requires Inv(shards, scripts, limit, slots) && !AllFinished(slots)
    ensures exists a :: Enabled(limit, slots, a)
  {
    if i :| 0 <= i < |slots| && slots[i].Active? {
      assert Enabled(limit, slots, Attempt(i));
    } else {
      var i :| 0 <= i < |slots| && !slots[i].Finished?;
      NoneActive(slots);
      assert Enabled(limit, slots, Start(i));
    }
  }

  function Results(slots: seq<Slot>): (rs: seq<Result>)
    requires AllFinished(slots)
    ensures |rs| == |slots| && forall i :: 0 <= i < |slots| ==> rs[i] == slots[i].result
  {
    if slots == [] then [] else Results(slots[..|slots| - 1]) + [slots[|slots| - 1].result]
  }

  /** Positions of the shards that fail on their own. */
  function Doomed(shards: seq<Shard>, scripts: seq<Script>): nat
    requires |shards| == |scripts|
  {
    |Failures(Sequential(shards, scripts))|
  }

  /** The bounded Map refines the sequential batch: every schedule with 5 steps of progress per shard
      finishes, with exactly the sequential results, each at its own index, so the summary does not
      depend on the schedule, the retries or MaxConcurrency. */
  lemma MapRefinesSequential(count: nat, source: string, scripts: seq<Script>, limit: nat, schedule: seq<Action>)
    requires |scripts| == count
    requires Progress(Split(count, source), scripts, limit, Unstarted(count), schedule) >= 5 * count
    ensures var shards := Split(count, source);
            var slots := RunAll(shards, scripts, limit, Unstarted(count), schedule);
            && AllFinished(slots)
            && Results(slots) == Sequential(shards, scripts)
            && var s := Reduce(Results(slots));
               && s.total == count && s.failed == Doomed(shards, scripts) && s.succeeded == count - s.failed
               && s.records == SHARD_SIZE * (count - s.failed)
               && (s.status.PARTIAL? <==> s.failed > 0)
  {
    var shards := Split(count, source);
    UnstartedIsFine(shards, scripts, limit);
    UnstartedRemaining(count);
    ProgressFinishes(shards, scripts, limit, Unstarted(count), schedule);
    var slots := RunAll(shards, scripts, limit, Unstarted(count), schedule);
    var rs := Sequential(shards, scripts);
    forall i | 0 <= i < count
      ensures Results(slots)[i] == rs[i] && ResultOf(rs[i], shards[i])
    {
      EverySlotIsSequential(shards, scripts, limit, schedule, i);
      SequentialAt(shards, scripts, i);
    }
    SummaryIsExact(count, source, rs);
  }

  // ------------------------------------------------ the Map state itself

  class MapExecution {
    const shards: seq<Shard>
    const limit: nat
    const slots: array<Slot>
    var active: nat

    constructor (shards: seq<Shard>, limit: nat)
      ensures Valid() && fresh(slots)
      ensures this.shards == shards && this.limit == limit && slots[..] == Unstarted(|shards|)
    {
      this.shards := shards;
      this.limit := limit;
      slots := new Slot[|shards|](i => Pending);
      active := 0;
      new;
      assert slots[..] == Unstarted(|shards|);
      NoneActive(slots[..]);
    }

    ghost predicate Valid()
      reads this, slots
    {
      slots.Length == |shards| && active == ActiveCount(slots[..])
    }

    method StartShard(i: nat, ghost scripts: seq<Script>)
      requires Valid() && |scripts| == |shards|
      modifies this, slots
      ensures Valid() && slots[..] == Step(shards, scripts, limit, old(slots[..]), Start(i))
    {
      if i < slots.Length && slots[i].Pending? && (limit == 0 || active < limit) {
        CountUpdate(slots[..], i, Active(0, map[], 0));
        slots[i] := Active(0, map[], 0);
        active := active + 1;
        assert slots[..] == old(slots[..])[i := Active(0, map[], 0)];
      }
    }

    /** The shard's current attempt returns or is reported as failed. */
    method ReturnAttempt(i: nat, scripts: seq<Script>)
      requires Valid() && |scripts| == |shards|
      modifies this, slots
      ensures Valid() && slots[..] == Step(shards, scripts, limit, old(slots[..]), Attempt(i))
    {
      if i < slots.Length && slots[i].Active? {
        var slot := slots[i];
        var next := slot;
        match Outcome(scripts[i], slot.attempt) {
          case None => next := Finished(Process(shards[i]), slot.attempt + 1, slot.waited);
          case Some(e) =>
            match OnError(SHARD_RETRY, SHARD_CATCH, slot.counters, e) {
              case RetryAfter(wait, counters) => next := Active(slot.attempt + 1, counters, slot.waited + wait);
              case CaughtBy(_) => next := Finished(Failed(shards[i].id, e), slot.attempt + 1, slot.waited);
              case Uncaught =>
            }
        }
        CountUpdate(slots[..], i, next);
        slots[i] := next;
        if !next.Active? { active := active - 1; }
        assert slots[..] == old(slots[..])[i := next];
      }
    }

    method Run(schedule: seq<Action>, scripts: seq<Script>)
      requires Valid() && |scripts| == |shards|
      modifies this, slots
      ensures Valid() && slots[..] == RunAll(shards, scripts, limit, old(slots[..]), schedule)
    {
      var k := 0;
      while k < |schedule|
        invariant 0 <= k <= |schedule| && Valid()
        invariant RunAll(shards, scripts, limit, slots[..], schedule[k..]) ==
                    RunAll(shards, scripts, limit, old(slots[..]), schedule)
      {
        assert schedule[k..][1..] == schedule[k + 1..];
        match schedule[k] {
          case Start(i) => StartShard(i, scripts);
          case Attempt(i) => ReturnAttempt(i, scripts);
        }
        k := k + 1;
      }
    }
  }
}
