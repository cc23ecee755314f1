/** Runs without faults: only the failures that the execution input asks for. The outcome, the
    attempts and the retry waits of the whole saga are then a function of the input. */
module SagaCleanRuns {
  import opened StatesLanguage
  import opened SagaRecords
  import opened SagaHandlers
  import opened SagaMachine
  import opened SagaRollback
  import opened SagaBounds
  import opened SagaAgreement

  /** Highest `flaky_steps` value the step survives: each retry of create_order starts over with a
      new record, so its attempt counter never gets past 1; the others get 1 + 3 attempts. */
  function FlakyLimit(f: Forward): int {
    if f.CreateOrder? then 1 else 4
  }

  predicate Passes(doc: Doc, f: Forward) {
    && (f.CreateOrder? ==> doc.order.Some? && Sellable(doc.order.value))
    && doc.failAt != Some(Fwd(f))
    && SucceedOn(doc, Fwd(f)) <= FlakyLimit(f)
  }

  predicate Completable(doc: Doc) {
    && Passes(doc, CreateOrder) && Passes(doc, ChargePayment)
    && Passes(doc, ReserveInventory) && Passes(doc, ScheduleShipment)
  }

  /** The input does not make this step fail: `fail_at` names another step or none, and its flaky value,
      if it has one, is at most 1 for create_order and 4 for the others. */
  predicate Undisturbed(doc: Doc, f: Forward) {
    && doc.failAt != Some(Fwd(f))
    && (Fwd(f) in doc.flaky ==> doc.flaky[Fwd(f)] <= if f == CreateOrder then 1 else 4)
  }

  /** Completable, in terms of the input itself. */
  lemma CompletableMeans(doc: Doc)
    ensures Completable(doc) <==>
      && doc.order.Some? && doc.order.value.amount > 0.0 && |doc.order.value.items| > 0
      && forall f: Forward :: Undisturbed(doc, f)
  {
    if Completable(doc) {
      forall f: Forward
        ensures Undisturbed(doc, f)
      {
        match f
        case CreateOrder =>
        case ChargePayment =>
        case ReserveInventory =>
        case ScheduleShipment =>
      }
    } else {
      assert !Passes(doc, FirstBlocked(doc));
      assert Undisturbed(doc, FirstBlocked(doc)) ==> FirstBlocked(doc) == CreateOrder;
    }
  }

  /** The first step the input does not let through. */
  function FirstBlocked(doc: Doc): Forward
    requires !Completable(doc)
  {
    if !Passes(doc, CreateOrder) then CreateOrder
    else if !Passes(doc, ChargePayment) then ChargePayment
    else if !Passes(doc, ReserveInventory) then ReserveInventory
    else ScheduleShipment
  }

  /** Attempts a blocked step takes: one for an unsellable order, all four for a step that stays
      flaky, max(1, n) when `fail_at` names a step that is flaky for a while. */
  function BlockedTries(doc: Doc, f: Forward): int {
    if f.CreateOrder? && doc.order.Some? && !Sellable(doc.order.value) then 1
    else if SucceedOn(doc, Fwd(f)) > FlakyLimit(f) then 4
    else CleanTries(doc, f)
  }

  /** Attempts a surviving step takes: max(1, n). */
  function CleanTries(doc: Doc, f: Forward): int {
    if SucceedOn(doc, Fwd(f)) <= 1 then 1 else SucceedOn(doc, Fwd(f))
  }

  lemma CleanTriesMeans(doc: Doc, f: Forward)
    ensures CleanTries(doc, f) == if Fwd(f) in doc.flaky && doc.flaky[Fwd(f)] > 1 then doc.flaky[Fwd(f)] else 1
  {
  }

  /** Seconds waited by k retries: 2 + 4 + ... + 2^k. */
  function RetryWait(k: int): int {
    if k <= 0 then 0 else 2 * Pow(2, k) - 2
  }

  function StepWait(doc: Doc, f: Forward): int {
    RetryWait(CleanTries(doc, f) - 1)
  }

  /** Retry waits of the forward steps before `s`. */
  function WaitBefore(doc: Doc, s: StateName): int {
    (if s == Run(CreateOrder) then 0 else StepWait(doc, CreateOrder)) +
    (if s == Run(CreateOrder) || s == Run(ChargePayment) then 0 else StepWait(doc, ChargePayment)) +
    (if s == Run(CreateOrder) || s == Run(ChargePayment) || s == Run(ReserveInventory) then 0
     else StepWait(doc, ReserveInventory)) +
    (if s.Run? then 0 else StepWait(doc, ScheduleShipment))
  }

  // ------------------------------------------------ one attempt without faults

  function BaseCount(f: Forward, item: Option<Record>): nat {
    if f.CreateOrder? then 0 else AttemptCount(item, Fwd(f))
  }

  predicate Due(f: Forward, doc: Doc, item: Option<Record>) {
    SucceedOn(doc, Fwd(f)) != 0 && BaseCount(f, item) + 1 < SucceedOn(doc, Fwd(f))
  }

  lemma CleanAttempt(f: Forward, doc: Doc, item: Option<Record>, suffix: string)
    requires doc.order.Some? && (!f.CreateOrder? ==> HasMaps(item))
    requires f.CreateOrder? ==> Sellable(doc.order.value)
    ensures var (after, reply) := Invoke(Forwards(f), doc, item, NoFault, suffix);
            && HasMaps(after)
            && (Due(f, doc, item) ==> reply == Raised(SagaTransientError))
            && (!Due(f, doc, item) && doc.failAt == Some(Fwd(f)) ==> reply == Raised(SagaBusinessError))
            && (!Due(f, doc, item) && doc.failAt != Some(Fwd(f)) ==> reply.Returned?)
            && (SucceedOn(doc, Fwd(f)) != 0 ==> AttemptCount(after, Fwd(f)) == BaseCount(f, item) + 1)
            && (forall g :: g != f && !f.CreateOrder? ==> AttemptCount(after, Fwd(g)) == AttemptCount(item, Fwd(g)))
            && (forall g :: g != f && f.CreateOrder? ==> AttemptCount(after, Fwd(g)) == 0)
  {
    var s0 := Open(item, NoFault);
    var s1 := if f.CreateOrder? then Do(s0, Start(InfoOf(doc.order.value))) else s0;
    assert s1.Open? && HasMaps(s1.item) && s1.fault == NoFault;
    assert f.CreateOrder? ==> s1.item.value.attempts.value == map[];
    assert AttemptCount(s1.item, Fwd(f)) == BaseCount(f, item);
    CleanAfterStart(f, doc, doc.order.value, s1, suffix);
  }

  lemma CleanAfterStart(f: Forward, doc: Doc, order: Order, s: Session, suffix: string)
    requires s.Open? && HasMaps(s.item) && s.fault == NoFault
    ensures var (t, reply) := AfterStart(f, doc, order, s, suffix);
            var n := SucceedOn(doc, Fwd(f));
            var count := AttemptCount(s.item, Fwd(f));
            && HasMaps(t.item) && t.fault == NoFault
            && (n != 0 && count + 1 < n ==> reply == Raised(SagaTransientError))
            && (!(n != 0 && count + 1 < n) ==>
                  if doc.failAt == Some(Fwd(f)) then reply == Raised(SagaBusinessError) else reply.Returned?)
            && (n != 0 ==> AttemptCount(t.item, Fwd(f)) == count + 1)
            && (forall g :: g != f ==> AttemptCount(t.item, Fwd(g)) == AttemptCount(s.item, Fwd(g)))
  {
    var s1 := InjectTransient(f, doc, s);
    assert s1.Open? && HasMaps(s1.item) && s1.fault == NoFault;
    assert SucceedOn(doc, Fwd(f)) != 0 ==> AttemptCount(s1.item, Fwd(f)) == AttemptCount(s.item, Fwd(f)) + 1;
    WriteEffect(s1, RecordStep(Fwd(f), Entry(DONE, DetailFor(OutputFor(f, order, suffix)))));
  }

  /** The retriers of a forward state: transient errors get three retries, business errors none. */
  lemma ForwardVerdict(f: Forward, counters: Counters)
    ensures var d := Definition(Run(f));
            && OnError(d.retriers, d.catchers, counters, SagaBusinessError) ==
                 CaughtBy(Fallback(ErrorPath, OnForwardFailure(f)))
            && OnError(d.retriers, d.catchers, counters, SagaTransientError) ==
                 if Used(counters, 0) < 3 then
                   RetryAfter(2 * Pow(2, Used(counters, 0)), counters[0 := Used(counters, 0) + 1])
                 else CaughtBy(Fallback(ErrorPath, OnForwardFailure(f)))
  {
    CatchAllTakesEverything(Run(f), counters, SagaBusinessError);
    CatchAllTakesEverything(Run(f), counters, SagaTransientError);
    var rs := FORWARD_RETRY;
    assert FirstRule(rs, SagaTransientError) == Some(0) by { assert Covers(rs[0].errors, SagaTransientError); }
    assert FirstRule(rs, SagaBusinessError) == None by {
      assert !Covers(rs[0].errors, SagaBusinessError) && !Covers(rs[1].errors, SagaBusinessError);
    }
  }

  // ------------------------------------------------ the invariant of clean runs

  predicate SameInput(a: Doc, b: Doc) {
    a.order == b.order && a.failAt == b.failAt && a.flaky == b.flaky
  }

  ghost predicate PassedBefore(x: Execution, doc: Doc, r: nat) {
    forall g: Forward :: Rank(g) < r ==> Passes(doc, g) && Tries(x.log, Run(g)) == CleanTries(doc, g)
  }

  ghost predicate Untouched(x: Execution, r: nat) {
    forall g: Forward :: Rank(g) > r ==> Tries(x.log, Run(g)) == 0 && AttemptCount(x.item, Fwd(g)) == 0
  }

  /** In the middle of a forward step: as many attempts as retries used, all of them due. */
  ghost predicate Trying(x: Execution, doc: Doc, f: Forward) {
    var j := Used(x.counters, 0);
    && PassedBefore(x, doc, Rank(f)) && Untouched(x, Rank(f))
    && j <= 3 && Tries(x.log, Run(f)) == j
    && (!f.CreateOrder? ==>
          HasMaps(x.item) && AttemptCount(x.item, Fwd(f)) == if SucceedOn(doc, Fwd(f)) != 0 then j else 0)
    && (j > 0 ==> SucceedOn(doc, Fwd(f)) > if f.CreateOrder? then 1 else j)
    && (j > 0 && f.CreateOrder? && doc.order.Some? ==> Sellable(doc.order.value))
    && x.log.waited == WaitBefore(doc, Run(f)) + RetryWait(j)
  }

  /** The rollback was entered from the first blocked step, after as many attempts as it takes. */
  ghost predicate GaveUp(x: Execution, doc: Doc) {
    && !Completable(doc)
    && x.log.succeeded == Before(FirstBlocked(doc))
    && Tries(x.log, Run(FirstBlocked(doc))) == BlockedTries(doc, FirstBlocked(doc))
  }

  ghost predicate Clean(x: Execution, doc: Doc) {
    && SameInput(x.doc, doc)
    && match x.at
       case Succeeded => Completable(doc) && PassedBefore(x, doc, 4) && x.log.waited == WaitBefore(doc, CompleteSaga)
       case Failed(_) => false
       case TimedOut => false
       case At(s) =>
         match s
         case InitializeSaga => x.log == NEW_LOG && x.item == None
         case Run(f) => Trying(x, doc, f)
         case CompleteSaga => PassedBefore(x, doc, 4) && x.log.waited == WaitBefore(doc, CompleteSaga)
         case CompensationFailed => false
         case _ => GaveUp(x, doc)
  }

  lemma CleanForwardStep(x: Execution, doc: Doc, f: Forward, suffix: string)
    requires doc.order.Some? && Ordered(x) && Clean(x, doc) && x.at == At(Run(f))
    ensures Clean(RunTask(x, Run(f), NoFault, suffix), doc)
  {
    if f.CreateOrder? && !Sellable(doc.order.value) {
      var y := Attempted(x, Run(f), Invoke(Forwards(f), x.doc, x.item, NoFault, suffix).0);
      TriesAfterAttempt(x, Run(f), y.item);
      CleanFailure(y, doc, f, SagaBusinessError);
    } else {
      SellableForwardStep(x, doc, f, suffix);
    }
  }

  lemma SellableForwardStep(x: Execution, doc: Doc, f: Forward, suffix: string)
    requires doc.order.Some? && Ordered(x) && Clean(x, doc) && x.at == At(Run(f))
    requires f.CreateOrder? ==> Sellable(doc.order.value)
    ensures Clean(RunTask(x, Run(f), NoFault, suffix), doc)
  {
    if Due(f, x.doc, x.item) {
      DueForwardStep(x, doc, f, suffix);
    } else {
      SettledForwardStep(x, doc, f, suffix);
    }
  }

  /** The attempt raises the injected transient error. */
  lemma DueForwardStep(x: Execution, doc: Doc, f: Forward, suffix: string)
    requires doc.order.Some? && Ordered(x) && Clean(x, doc) && x.at == At(Run(f))
    requires f.CreateOrder? ==> Sellable(doc.order.value)
    requires Due(f, x.doc, x.item)
    ensures Clean(RunTask(x, Run(f), NoFault, suffix), doc)
  {
    var (after, reply) := Invoke(Forwards(f), x.doc, x.item, NoFault, suffix);
    var y := Attempted(x, Run(f), after);
    TriesAfterAttempt(x, Run(f), after);
    CleanAttempt(f, x.doc, x.item, suffix);
    if Used(x.counters, 0) < 3 {
      RaiseRetries(y, f);
      CleanRetry(x, y, doc, f);
    } else {
      BlockedNow(x, doc, f);
      CleanFailure(y, doc, f, SagaTransientError);
    }
  }

  /** The attempt gets past the injected transient errors. */
  lemma SettledForwardStep(x: Execution, doc: Doc, f: Forward, suffix: string)
    requires doc.order.Some? && Ordered(x) && Clean(x, doc) && x.at == At(Run(f))
    requires f.CreateOrder? ==> Sellable(doc.order.value)
    requires !Due(f, x.doc, x.item)
    ensures Clean(RunTask(x, Run(f), NoFault, suffix), doc)
  {
    var (after, reply) := Invoke(Forwards(f), x.doc, x.item, NoFault, suffix);
    var y := Attempted(x, Run(f), after);
    TriesAfterAttempt(x, Run(f), after);
    CleanAttempt(f, x.doc, x.item, suffix);
    if doc.failAt == Some(Fwd(f)) {
      BlockedNow(x, doc, f);
      CleanFailure(y, doc, f, SagaBusinessError);
    } else {
      PassedNow(x, doc, f);
      CleanSuccess(y, doc, f, reply.output);
    }
  }

  lemma BlockedNow(x: Execution, doc: Doc, f: Forward)
    requires doc.order.Some? && Clean(x, doc) && x.at == At(Run(f))
    requires f.CreateOrder? ==> Sellable(doc.order.value)
    requires (Due(f, x.doc, x.item) && Used(x.counters, 0) >= 3) ||
             (!Due(f, x.doc, x.item) && doc.failAt == Some(Fwd(f)))
    ensures !Passes(doc, f) && BlockedTries(doc, f) == Used(x.counters, 0) + 1
  {
  }

  lemma CleanFailure(y: Execution, doc: Doc, f: Forward, e: ErrorName)
    requires SameInput(y.doc, doc) && y.at == At(Run(f)) && !Passes(doc, f)
    requires PassedBefore(y, doc, Rank(f)) && y.log.succeeded == Before(f)
    requires Tries(y.log, Run(f)) == BlockedTries(doc, f)
    requires e == SagaBusinessError || (e == SagaTransientError && Used(y.counters, 0) >= 3)
    ensures Clean(OnRaise(y, Run(f), e), doc)
  {
    ForwardVerdict(f, y.counters);
    BlockedFirst(y, doc, f);
  }

  lemma BlockedFirst(y: Execution, doc: Doc, f: Forward)
    requires !Passes(doc, f) && PassedBefore(y, doc, Rank(f))
    ensures !Completable(doc) && FirstBlocked(doc) == f
  {
    assert Rank(f) > 0 ==> Passes(doc, CreateOrder);
    assert Rank(f) > 1 ==> Passes(doc, ChargePayment);
    assert Rank(f) > 2 ==> Passes(doc, ReserveInventory);
  }

  lemma TriesAfterAttempt(x: Execution, s: StateName, item: Option<Record>)
    ensures var y := Attempted(x, s, item);
            Tries(y.log, s) == Tries(x.log, s) + 1 && forall t :: t != s ==> Tries(y.log, t) == Tries(x.log, t)
  {
  }

  lemma PassedNow(x: Execution, doc: Doc, f: Forward)
    requires doc.order.Some? && Clean(x, doc) && x.at == At(Run(f))
    requires f.CreateOrder? ==> Sellable(doc.order.value)
    requires !Due(f, x.doc, x.item) && doc.failAt != Some(Fwd(f))
    ensures Passes(doc, f) && CleanTries(doc, f) == Used(x.counters, 0) + 1
  {
  }

  /** What a clean attempt of `f` does to the stored attempt counters. */
  ghost predicate CountsOneMore(before: Option<Record>, after: Option<Record>, f: Forward, doc: Doc) {
    && HasMaps(after)
    && (SucceedOn(doc, Fwd(f)) != 0 ==> AttemptCount(after, Fwd(f)) == BaseCount(f, before) + 1)
    && forall g :: g != f ==> AttemptCount(after, Fwd(g)) == if f.CreateOrder? then 0 else AttemptCount(before, Fwd(g))
  }

  /** The execution after a retried transient error. */
  function Retried(y: Execution): Execution {
    var j := Used(y.counters, 0);
    y.(counters := y.counters[0 := j + 1], log := y.log.(waited := y.log.waited + 2 * Pow(2, j)))
  }

  lemma RaiseRetries(y: Execution, f: Forward)
    requires y.at == At(Run(f)) && Used(y.counters, 0) < 3
    ensures OnRaise(y, Run(f), SagaTransientError) == Retried(y)
  {
    ForwardVerdict(f, y.counters);
  }

  lemma CleanRetry(x: Execution, y: Execution, doc: Doc, f: Forward)
    requires SameInput(x.doc, doc) && Trying(x, doc, f) && Used(x.counters, 0) < 3 && Due(f, x.doc, x.item)
    requires f.CreateOrder? && doc.order.Some? ==> Sellable(doc.order.value)
    requires y == Attempted(x, Run(f), y.item) && CountsOneMore(x.item, y.item, f, doc)
    ensures Trying(Retried(y), doc, f)
  {
    var j := Used(x.counters, 0);
    var z := Retried(y);
    TriesAfterAttempt(x, Run(f), y.item);
    assert Used(z.counters, 0) == j + 1;
    assert RetryWait(j + 1) == RetryWait(j) + 2 * Pow(2, j);
    assert forall t :: Tries(z.log, t) == Tries(y.log, t);
  }

  lemma CleanSuccess(y: Execution, doc: Doc, f: Forward, output: Output)
    requires SameInput(y.doc, doc) && y.at == At(Run(f)) && HasMaps(y.item)
    requires PassedBefore(y, doc, Rank(f)) && Passes(doc, f) && Tries(y.log, Run(f)) == CleanTries(doc, f)
    requires Untouched(y, Rank(f))
    requires y.log.waited == WaitBefore(doc, Run(f)) + StepWait(doc, f)
    ensures Clean(OnReturn(y, Run(f), output), doc)
  {
    var z := OnReturn(y, Run(f), output);
    assert forall s :: Tries(z.log, s) == Tries(y.log, s);
    assert forall g: Forward :: Rank(g) == Rank(f) ==> g == f;
    assert PassedBefore(z, doc, Rank(f) + 1);
    assert Untouched(z, Rank(f));
  }

  lemma CleanUndoStep(x: Execution, doc: Doc, c: Compensation, suffix: string)
    requires doc.order.Some? && Ordered(x) && Agreed(x) && Clean(x, doc) && x.at == At(Undo(c))
    ensures Clean(RunTask(x, Undo(c), NoFault, suffix), doc)
  {
    UndoneSucceeded(x, c);
    assert HasMaps(x.item);
    CleanUndoReturns(c, x.doc, x.item, suffix);
  }

  lemma CleanUndoReturns(c: Compensation, doc: Doc, item: Option<Record>, suffix: string)
    requires doc.order.Some? && HasMaps(item)
    ensures Invoke(Undoes(c), doc, item, NoFault, suffix).1.Returned?
  {
    var s1 := Do(Open(item, NoFault), SetStatus(COMPENSATING));
    assert s1.Open? && HasMaps(s1.item);
  }

  lemma CleanMarkStep(x: Execution, doc: Doc, s: StateName, suffix: string)
    requires doc.order.Some? && Clean(x, doc) && x.at == At(s) && (s.MarkFailed? || s.CompleteSaga?)
    ensures Clean(RunTask(x, s, NoFault, suffix), doc)
  {
    var (after, reply) := Invoke(Definition(s).handler, x.doc, x.item, NoFault, suffix);
    TriesAfterAttempt(x, s, after);
    assert reply.Returned?;
    var z := RunTask(x, s, NoFault, suffix);
    assert forall g :: Tries(z.log, Run(g)) == Tries(x.log, Run(g));
    assert Rank(CreateOrder) < 4 && Rank(ChargePayment) < 4 && Rank(ReserveInventory) < 4 && Rank(ScheduleShipment) < 4;
  }

  predicate Faultless(e: Event) {
    e.Attempt? && e.fault == NoFault
  }

  lemma {:induction false} CleanRun(x: Execution, doc: Doc, events: seq<Event>)
    requires doc.order.Some? && Ordered(x) && Agreed(x) && Clean(x, doc)
    requires forall e :: e in events ==> Faultless(e)
    ensures Clean(RunAll(x, events), doc)
    decreases |events|
  {
    if events != [] {
      var e := events[0];
      assert Faultless(e);
      StepKeepsOrder(x, e);
      StepKeepsAgreement(x, e);
      if !Halted(x) {
        match x.at.state
        case Run(f) => CleanForwardStep(x, doc, f, e.suffix);
        case InitializeSaga => assert Trying(Step(x, e), doc, CreateOrder);
        case Undo(c) => CleanUndoStep(x, doc, c, e.suffix);
        case CompleteSaga => CleanMarkStep(x, doc, CompleteSaga, e.suffix);
        case MarkFailed => CleanMarkStep(x, doc, MarkFailed, e.suffix);
        case _ =>
      }
      CleanRun(Step(x, e), doc, events[1..]);
    }
  }

  /** What a clean run that has halted looks like. */
  lemma CleanEnd(x: Execution, doc: Doc)
    requires Ordered(x) && Clean(x, doc) && Halted(x)
    ensures (x.at == Succeeded <==> Completable(doc)) && (x.at == At(SagaFailed) <==> !Completable(doc))
    ensures x.at == At(SagaFailed) ==> GaveUp(x, doc) && x.log.compensated == Compensators(Before(FirstBlocked(doc)))
    ensures x.at == Succeeded ==> PassedBefore(x, doc, 4) && x.log.waited == WaitBefore(doc, CompleteSaga)
  {
    assert x.log.compensated + [] == x.log.compensated;
  }

  /** With no faults the saga always ends, completed if and only if the input lets every step
      pass, and rolled back otherwise, from the first step that the input blocks. A completed run
      used max(1, n) attempts for a step with flaky value n and waited exactly the sum of its
      doubling retry intervals. */
  lemma CleanOutcome(doc: Doc, events: seq<Event>)
    requires doc.order.Some?
    requires |events| >= 56 && forall e :: e in events ==> Faultless(e)
    ensures var x := RunAll(Begin(doc, None), events);
            && (x.at == Succeeded <==> Completable(doc))
            && (x.at == At(SagaFailed) <==> !Completable(doc))
            && (x.at == At(SagaFailed) ==>
                  var f := FirstBlocked(doc);
                  && x.log.succeeded == Before(f) && Tries(x.log, Run(f)) == BlockedTries(doc, f)
                  && x.log.compensated == Compensators(Before(f)))
            && (x.at == Succeeded ==>
                  && (forall f :: Tries(x.log, Run(f)) == CleanTries(doc, f))
                  && x.log.waited == StepWait(doc, CreateOrder) + StepWait(doc, ChargePayment) +
                                     StepWait(doc, ReserveInventory) + StepWait(doc, ScheduleShipment))
  {
    var b := Begin(doc, None);
    EveryRunHalts(doc, None, events);
    assert Ordered(b) && Agreed(b) && Clean(b, doc);
    CleanRun(b, doc, events);
    RunKeepsOrder(b, events);
    CleanEnd(RunAll(b, events), doc);
    assert forall f :: Rank(f) < 4;
  }
}
