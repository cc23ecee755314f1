/** Termination and retry budgets of the saga: every run halts, after at most 55 attempts and
    425 seconds of retry waiting, both computed from the transition table and both reached. */
module SagaBounds {
  import opened Integers
  import opened StatesLanguage
  import opened SagaRecords
  import opened SagaHandlers
  import opened SagaMachine

  /** The states an execution of `s` can hand over to: its Next edge and its Catch edge. */
  function NextOf(s: StateName): Option<StateName> {
    match s
    case InitializeSaga => Some(Run(CreateOrder))
    case Run(f) => Some(NextForward(f))
    case Undo(c) => Some(NextUndo(c))
    case MarkFailed => Some(SagaFailed)
    case _ => None
  }

  function CatchTarget(s: StateName): Option<StateName> {
    match s
    case Run(f) => Some(OnForwardFailure(f))
    case Undo(_) => Some(CompensationFailed)
    case _ => None
  }

  /** These are the edges of the transition table. */
  lemma TableEdges(s: StateName)
    ensures match Definition(s)
            case PassState(_, next) => NextOf(s) == Some(next) && CatchTarget(s) == None
            case TaskState(_, _, _, catchers, after, _) =>
              NextOf(s) == after &&
              CatchTarget(s) == (if catchers == [] then None else Some(catchers[0].action.next))
            case FailState => NextOf(s) == None && CatchTarget(s) == None
  {
  }

  /** What a run can use up. */
  datatype Resource = Attempts | WaitSeconds

  /** The most of a resource that one execution of state `s` can use, from fresh counters. */
  function Budget(r: Resource, s: StateName): nat {
    Here(r, s, map[])
  }

  /** The same budget, computed: 8 attempts per forward step, 6 per compensation, 5 for
      MarkFailed, 4 for CompleteSaga; seconds of waiting likewise. */
  function BudgetOf(r: Resource, s: StateName): nat {
    match s
    case Run(_) => if r.Attempts? then 8 else 29
    case Undo(_) => if r.Attempts? then 6 else 93
    case MarkFailed => if r.Attempts? then 5 else 30
    case CompleteSaga => if r.Attempts? then 4 else 14
    case _ => 0
  }

  /** The most that any path can use after leaving `s`; BeyondIsWorstExit derives it from the table. */
  function Beyond(r: Resource, s: StateName): nat {
    match s
    case InitializeSaga => if r.Attempts? then 55 else 425
    case Run(f) =>
      (match f
       case CreateOrder => if r.Attempts? then 47 else 396
       case ChargePayment => if r.Attempts? then 39 else 367
       case ReserveInventory => if r.Attempts? then 31 else 338
       case ScheduleShipment => if r.Attempts? then 23 else 309)
    case Undo(c) =>
      (match c
       case ReleaseInventory => if r.Attempts? then 17 else 216
       case RefundPayment => if r.Attempts? then 11 else 123
       case CancelOrder => if r.Attempts? then 5 else 30)
    case _ => 0
  }

  /** The most that any path starting with the entry of `s` can use. */
  function Worst(r: Resource, s: Option<StateName>): nat {
    if s.None? then 0 else BudgetOf(r, s.value) + Beyond(r, s.value)
  }

  /** The most that the current state execution can still use. */
  function Here(r: Resource, s: StateName, counters: Counters): nat {
    if !Definition(s).TaskState? then 0
    else if r.Attempts? then 1 + RetriesLeft(Definition(s).retriers, counters)
    else TotalWaitLeft(Definition(s).retriers, counters)
  }

  /** The most that an execution can still use from where it is. */
  function Left(r: Resource, x: Execution): nat {
    if Halted(x) then 0 else Here(r, x.at.state, x.counters) + Beyond(r, x.at.state)
  }

  /** Lexicographic variant folded into one number: attempts left, plus one for the Pass state. */
  function StepsLeft(x: Execution): nat {
    Left(Attempts, x) + if x.at == At(InitializeSaga) then 1 else 0
  }

  // ------------------------------------------------ the numbers the table comes to

  lemma RetryAllBudget(interval: nat, max: nat)
    ensures RetriesLeft(RetryAll(interval, max), map[]) == max
    ensures TotalWaitLeft(RetryAll(interval, max), map[]) == interval * Pow(2, max) - interval
  {
    var rs := RetryAll(interval, max);
    assert RetriesLeft(rs, map[], 1) == 0 && TotalWaitLeft(rs, map[], 1) == 0;
    DoublingWaits(rs[0].action, 0);
    assert Pow(2, 0) == 1;
  }

  lemma ForwardBudget()
    ensures RetriesLeft(FORWARD_RETRY, map[]) == 7
    ensures TotalWaitLeft(FORWARD_RETRY, map[]) == 29
  {
    assert RetriesLeft(FORWARD_RETRY, map[], 2) == 0 && TotalWaitLeft(FORWARD_RETRY, map[], 2) == 0;
    DoublingWaits(FORWARD_RETRY[0].action, 0);
    DoublingWaits(FORWARD_RETRY[1].action, 0);
    Powers();
  }

  lemma Powers()
    ensures Pow(2, 0) == 1 && Pow(2, 1) == 2 && Pow(2, 2) == 4 && Pow(2, 3) == 8 && Pow(2, 4) == 16 && Pow(2, 5) == 32
  {
    assert Pow(2, 1) == 2 * Pow(2, 0);
    assert Pow(2, 2) == 2 * Pow(2, 1);
    assert Pow(2, 3) == 2 * Pow(2, 2);
    assert Pow(2, 4) == 2 * Pow(2, 3);
    assert Pow(2, 5) == 2 * Pow(2, 4);
  }

  /** The retry lists of the table come to these budgets. */
  lemma BudgetIs(r: Resource, s: StateName)
    ensures Budget(r, s) == BudgetOf(r, s)
  {
    ForwardBudget();
    RetryAllBudget(3, 5);
    RetryAllBudget(2, 4);
    RetryAllBudget(2, 3);
    Powers();
  }

  /** Beyond is the worst of the two exits, for every state of the table. */
  lemma BeyondIsWorstExit(r: Resource, s: StateName)
    ensures Beyond(r, s) == Max(Worst(r, NextOf(s)), Worst(r, CatchTarget(s)))
  {
  }

  // ------------------------------------------------ what each step spends

  lemma EnterFits(r: Resource, y: Execution, s: StateName)
    requires y.at == At(s) && y.counters == map[]
    ensures Left(r, y) <= Worst(r, Some(s))
  {
    BudgetIs(r, s);
  }

  lemma ReturnEnters(x: Execution, s: StateName, output: Output)
    requires x.at == At(s) && Definition(s).TaskState?
    ensures var y := OnReturn(x, s, output);
            && y.log.waited == x.log.waited && y.log.attempts == x.log.attempts
            && (if NextOf(s).Some? then y.at == At(NextOf(s).value) && y.counters == map[] else y.at == Succeeded)
            && y.at != At(InitializeSaga)
  {
    TableEdges(s);
  }

  lemma ReturnSpends(x: Execution, s: StateName, output: Output)
    requires x.at == At(s) && Definition(s).TaskState?
    ensures var y := OnReturn(x, s, output);
            Left(Attempts, y) < Left(Attempts, x) && Left(WaitSeconds, y) <= Left(WaitSeconds, x) &&
            y.at != At(InitializeSaga) && y.log.waited == x.log.waited && y.log.attempts == x.log.attempts
  {
    var y := OnReturn(x, s, output);
    ReturnEnters(x, s, output);
    BeyondIsWorstExit(Attempts, s);
    BeyondIsWorstExit(WaitSeconds, s);
    if NextOf(s).Some? {
      EnterFits(Attempts, y, NextOf(s).value);
      EnterFits(WaitSeconds, y, NextOf(s).value);
    }
  }

  lemma CaughtGoesToTarget(s: StateName, counters: Counters, e: ErrorName)
    requires Definition(s).TaskState?
    ensures var d := Definition(s);
            var v := OnError(d.retriers, d.catchers, counters, e);
            v.CaughtBy? ==> CatchTarget(s) == Some(v.fallback.next) && v.fallback.next != InitializeSaga
  {
  }

  lemma RetrySpends(x: Execution, s: StateName, e: ErrorName)
    requires x.at == At(s) && Definition(s).TaskState?
    requires OnError(Definition(s).retriers, Definition(s).catchers, x.counters, e).RetryAfter?
    ensures var y := OnRaise(x, s, e);
            Left(Attempts, y) == Left(Attempts, x) - 1 &&
            Left(WaitSeconds, y) + y.log.waited == Left(WaitSeconds, x) + x.log.waited &&
            y.at == x.at && y.log.attempts == x.log.attempts
  {
    RetrySpendsBudget(Definition(s).retriers, Definition(s).catchers, x.counters, e);
  }

  lemma CatchSpends(x: Execution, s: StateName, e: ErrorName)
    requires x.at == At(s) && Definition(s).TaskState?
    requires !OnError(Definition(s).retriers, Definition(s).catchers, x.counters, e).RetryAfter?
    ensures var y := OnRaise(x, s, e);
            Left(Attempts, y) < Left(Attempts, x) && Left(WaitSeconds, y) <= Left(WaitSeconds, x) &&
            y.log.waited == x.log.waited && y.at != At(InitializeSaga) && y.log.attempts == x.log.attempts
  {
    CaughtGoesToTarget(s, x.counters, e);
    BeyondIsWorstExit(Attempts, s);
    BeyondIsWorstExit(WaitSeconds, s);
    if OnError(Definition(s).retriers, Definition(s).catchers, x.counters, e).CaughtBy? {
      EnterFits(Attempts, OnRaise(x, s, e), CatchTarget(s).value);
      EnterFits(WaitSeconds, OnRaise(x, s, e), CatchTarget(s).value);
    }
  }

  lemma TaskSpends(x: Execution, s: StateName, fault: Fault, suffix: string)
    requires x.at == At(s) && Definition(s).TaskState?
    ensures var y := RunTask(x, s, fault, suffix);
            && StepsLeft(y) < StepsLeft(x)
            && y.log.attempts == x.log.attempts + 1
            && y.log.waited + Left(WaitSeconds, y) <= x.log.waited + Left(WaitSeconds, x)
  {
    var r := Invoke(Definition(s).handler, x.doc, x.item, fault, suffix);
    var y := Attempted(x, s, r.0);
    assert forall r :: Left(r, y) == Left(r, x);
    if r.1.Returned? {
      ReturnSpends(y, s, r.1.output);
    } else if OnError(Definition(s).retriers, Definition(s).catchers, y.counters, r.1.error).RetryAfter? {
      RetrySpends(y, s, r.1.error);
    } else {
      CatchSpends(y, s, r.1.error);
    }
  }

  /** Every step of a run that has not halted makes progress, and pays for what it uses. */
  lemma StepSpends(x: Execution, e: Event)
    requires !Halted(x)
    ensures var y := Step(x, e);
            && StepsLeft(y) < StepsLeft(x)
            && y.log.attempts + Left(Attempts, y) <= x.log.attempts + Left(Attempts, x)
            && y.log.waited + Left(WaitSeconds, y) <= x.log.waited + Left(WaitSeconds, x)
  {
    var s := x.at.state;
    if e.Attempt? {
      if s.InitializeSaga? {
        BeyondIsWorstExit(Attempts, s);
        BeyondIsWorstExit(WaitSeconds, s);
        EnterFits(Attempts, Step(x, e), Run(CreateOrder));
        EnterFits(WaitSeconds, Step(x, e), Run(CreateOrder));
      } else {
        TaskSpends(x, s, e.fault, e.suffix);
      }
    }
  }

  lemma {:induction false} RunSpends(x: Execution, events: seq<Event>)
    ensures var y := RunAll(x, events);
            && y.log.attempts + Left(Attempts, y) <= x.log.attempts + Left(Attempts, x)
            && y.log.waited + Left(WaitSeconds, y) <= x.log.waited + Left(WaitSeconds, x)
            && (|events| >= StepsLeft(x) ==> Halted(y))
    decreases |events|
  {
    if events == [] {
      assert !Halted(x) ==> StepsLeft(x) > 0;
    } else {
      if !Halted(x) { StepSpends(x, events[0]); }
      RunSpends(Step(x, events[0]), events[1..]);
    }
  }

  // ------------------------------------------------ attempts per state

  /** Every edge goes strictly down, so no state is entered twice. */
  function PathRank(s: StateName): nat {
    match s
    case InitializeSaga => 9
    case Run(f) =>
      (match f
       case CreateOrder => 8
       case ChargePayment => 7
       case ReserveInventory => 6
       case ScheduleShipment => 5)
    case CompleteSaga => 4
    case Undo(c) =>
      (match c
       case ReleaseInventory => 4
       case RefundPayment => 3
       case CancelOrder => 2)
    case MarkFailed => 1
    case _ => 0
  }

  lemma EdgesGoDown(s: StateName)
    ensures NextOf(s).Some? ==> PathRank(NextOf(s).value) < PathRank(s)
    ensures CatchTarget(s).Some? ==> PathRank(CatchTarget(s).value) < PathRank(s)
  {
  }

  ghost predicate Paced(x: Execution) {
    && (forall s :: Tries(x.log, s) <= BudgetOf(Attempts, s))
    && (!Halted(x) ==>
          && Tries(x.log, x.at.state) + Here(Attempts, x.at.state, x.counters) <= BudgetOf(Attempts, x.at.state)
          && forall s :: PathRank(s) < PathRank(x.at.state) ==> Tries(x.log, s) == 0)
  }

  /** Moving on to a lower state that has not been tried yet. */
  lemma EnterKeepsPace(x: Execution, y: Execution, s: StateName)
    requires x.at.At? && PathRank(s) < PathRank(x.at.state)
    requires forall t :: Tries(x.log, t) <= BudgetOf(Attempts, t)
    requires forall t :: PathRank(t) < PathRank(x.at.state) ==> Tries(x.log, t) == 0
    requires y.at == At(s) && y.counters == map[] && y.log.tries == x.log.tries
    ensures Paced(y)
  {
    assert forall t :: Tries(y.log, t) == Tries(x.log, t);
    BudgetIs(Attempts, s);
  }

  lemma AttemptKeepsPace(x: Execution, s: StateName, item: Option<Record>)
    requires Paced(x) && x.at == At(s) && Definition(s).TaskState?
    ensures var y := Attempted(x, s, item);
            && (forall t :: Tries(y.log, t) <= BudgetOf(Attempts, t))
            && (forall t :: PathRank(t) < PathRank(s) ==> Tries(y.log, t) == 0)
            && Tries(y.log, s) + Here(Attempts, s, y.counters) <= BudgetOf(Attempts, s) + 1
  {
    var y := Attempted(x, s, item);
    assert Tries(y.log, s) == Tries(x.log, s) + 1;
    assert forall t :: t != s ==> Tries(y.log, t) == Tries(x.log, t);
    assert Here(Attempts, s, x.counters) >= 1;
  }

  lemma RetryKeepsPace(y: Execution, s: StateName, e: ErrorName)
    requires y.at == At(s) && Definition(s).TaskState?
    requires OnError(Definition(s).retriers, Definition(s).catchers, y.counters, e).RetryAfter?
    requires forall t :: Tries(y.log, t) <= BudgetOf(Attempts, t)
    requires forall t :: PathRank(t) < PathRank(s) ==> Tries(y.log, t) == 0
    requires Tries(y.log, s) + Here(Attempts, s, y.counters) <= BudgetOf(Attempts, s) + 1
    ensures Paced(OnRaise(y, s, e))
  {
    var d := Definition(s);
    var z := OnRaise(y, s, e);
    RetrySpendsBudget(d.retriers, d.catchers, y.counters, e);
    assert forall t :: Tries(z.log, t) == Tries(y.log, t);
  }

  lemma RaiseKeepsPace(y: Execution, s: StateName, e: ErrorName)
    requires y.at == At(s) && Definition(s).TaskState?
    requires forall t :: Tries(y.log, t) <= BudgetOf(Attempts, t)
    requires forall t :: PathRank(t) < PathRank(s) ==> Tries(y.log, t) == 0
    requires Tries(y.log, s) + Here(Attempts, s, y.counters) <= BudgetOf(Attempts, s) + 1
    ensures Paced(OnRaise(y, s, e))
  {
    var d := Definition(s);
    var z := OnRaise(y, s, e);
    var v := OnError(d.retriers, d.catchers, y.counters, e);
    if v.RetryAfter? {
      RetryKeepsPace(y, s, e);
    } else if v.CaughtBy? {
      EdgesGoDown(s);
      CaughtGoesToTarget(s, y.counters, e);
      EnterKeepsPace(y, z, CatchTarget(s).value);
    }
  }

  lemma TaskKeepsPace(x: Execution, s: StateName, fault: Fault, suffix: string)
    requires Paced(x) && x.at == At(s) && Definition(s).TaskState?
    ensures Paced(RunTask(x, s, fault, suffix))
  {
    var r := Invoke(Definition(s).handler, x.doc, x.item, fault, suffix);
    var y := Attempted(x, s, r.0);
    AttemptKeepsPace(x, s, r.0);
    if r.1.Returned? {
      var z := OnReturn(y, s, r.1.output);
      ReturnEnters(y, s, r.1.output);
      EdgesGoDown(s);
      if NextOf(s).Some? { EnterKeepsPace(y, z, NextOf(s).value); }
    } else {
      RaiseKeepsPace(y, s, r.1.error);
    }
  }

  lemma {:induction false} RunKeepsPace(x: Execution, events: seq<Event>)
    requires Paced(x)
    ensures Paced(RunAll(x, events))
    decreases |events|
  {
    if events != [] {
      var y := Step(x, events[0]);
      if !Halted(x) && events[0].Attempt? {
        if x.at.state.InitializeSaga? {
          EnterKeepsPace(x, y, Run(CreateOrder));
        } else {
          TaskKeepsPace(x, x.at.state, events[0].fault, events[0].suffix);
        }
      }
      RunKeepsPace(y, events[1..]);
    }
  }

  // ------------------------------------------------ time

  function UndoTries(log: Log): nat {
    Tries(log, Undo(ReleaseInventory)) + Tries(log, Undo(RefundPayment)) + Tries(log, Undo(CancelOrder))
  }

  /** Every Task times out after 30 seconds, a compensation after 60. */
  predicate Timed(x: Execution) {
    x.log.busy == 30 * x.log.attempts + 30 * UndoTries(x.log)
  }

  lemma AttemptTimed(x: Execution, s: StateName, item: Option<Record>)
    requires Timed(x) && Definition(s).TaskState?
    ensures Timed(Attempted(x, s, item))
  {
    var y := Attempted(x, s, item);
    assert Tries(y.log, s) == Tries(x.log, s) + 1 && forall t :: t != s ==> Tries(y.log, t) == Tries(x.log, t);
    if s.Undo? { assert s == Undo(s.c); }
  }

  /** Reacting to an outcome uses no Task time. */
  lemma OutcomeTimed(y: Execution, s: StateName, reply: Reply)
    requires Timed(y) && Definition(s).TaskState?
    ensures Timed(if reply.Returned? then OnReturn(y, s, reply.output) else OnRaise(y, s, reply.error))
  {
    var z := if reply.Returned? then OnReturn(y, s, reply.output) else OnRaise(y, s, reply.error);
    assert z.log.tries == y.log.tries && z.log.attempts == y.log.attempts && z.log.busy == y.log.busy;
  }

  lemma {:induction false} RunTimed(x: Execution, events: seq<Event>)
    requires Timed(x)
    ensures Timed(RunAll(x, events))
    decreases |events|
  {
    if events != [] {
      var e := events[0];
      if !Halted(x) && e.Attempt? && Definition(x.at.state).TaskState? {
        var s := x.at.state;
        var r := Invoke(Definition(s).handler, x.doc, x.item, e.fault, e.suffix);
        AttemptTimed(x, s, r.0);
        OutcomeTimed(Attempted(x, s, r.0), s, r.1);
      }
      RunTimed(Step(x, e), events[1..]);
    }
  }

  lemma StartsTimed(doc: Doc, item: Option<Record>)
    ensures Timed(Begin(doc, item))
  {
    NothingTried(Begin(doc, item));
  }

  lemma NothingTried(x: Execution)
    requires x.log.tries == map[] && x.log.attempts == 0 && x.log.busy == 0
    ensures Timed(x)
  {
  }

  lemma RunIsTimed(doc: Doc, item: Option<Record>, events: seq<Event>)
    ensures Timed(RunAll(Begin(doc, item), events))
  {
    StartsTimed(doc, item);
    RunTimed(Begin(doc, item), events);
  }

  lemma TimedAtLeast(x: Execution)
    requires Timed(x)
    ensures x.log.busy >= 30 * x.log.attempts
  {
  }

  /** Every run of the saga halts within 56 steps, whatever the handlers and Lambda do, having
      used at most 8 attempts per forward step, 6 per compensation and 5 for MarkFailed, 55
      attempts in all, at most 425 seconds of retry waiting, and at most 2190 seconds in its Tasks.
      The waits alone stay below the execution timeout; with the Tasks it can be exceeded. */
  lemma EveryRunHalts(doc: Doc, item: Option<Record>, events: seq<Event>)
    ensures var x := RunAll(Begin(doc, item), events);
            && (forall s :: Tries(x.log, s) <= BudgetOf(Attempts, s))
            && x.log.attempts <= 55
            && x.log.waited <= 425 < EXECUTION_TIMEOUT_SECONDS
            && x.log.busy <= 2190
            && (|events| >= 56 ==> Halted(x))
  {
    BudgetIs(Attempts, InitializeSaga);
    BudgetIs(WaitSeconds, InitializeSaga);
    assert Left(Attempts, Begin(doc, item)) <= 55 && Left(WaitSeconds, Begin(doc, item)) <= 425;
    RunSpends(Begin(doc, item), events);
    assert Paced(Begin(doc, item));
    RunKeepsPace(Begin(doc, item), events);
    RunIsTimed(doc, item, events);
  }
}
