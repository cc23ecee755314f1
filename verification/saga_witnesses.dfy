/** Concrete and adversarial runs: the bounds are reached, a lost reply leaves a charge that is
    never refunded, and results supplied in the input have no influence. */
module SagaWitnesses {
  import opened StatesLanguage
  import opened SagaRecords
  import opened SagaHandlers
  import opened SagaMachine
  import opened SagaRollback
  import opened SagaBounds
  import opened SagaAgreement
  import opened SagaCleanRuns

  // ------------------------------------------------ the input's own results

  /** InitializeSaga overwrites `$.results`: from the first step on, a run does not depend on
      what the input held there. */
  lemma InputResultsIgnored(doc: Doc, planted: map<ResultKey, Output>, item: Option<Record>, events: seq<Event>)
    requires events != [] && events[0].Attempt?
    ensures RunAll(Begin(doc.(results := planted), item), events) == RunAll(Begin(doc, item), events)
  {
    assert Step(Begin(doc.(results := planted), item), events[0]) == Step(Begin(doc, item), events[0]);
  }

  // ------------------------------------------------ a lost reply

  predicate Plain(doc: Doc) {
    doc.order.Some? && Sellable(doc.order.value) && doc.failAt == None && doc.flaky == map[]
  }

  lemma PlainForward(x: Execution, f: Forward)
    requires Plain(x.doc) && x.at == At(Run(f)) && (!f.CreateOrder? ==> HasMaps(x.item))
    ensures var y := Step(x, Attempt(NoFault, ""));
            && y.at == At(NextForward(f)) && y.counters == map[] && HasMaps(y.item) && Plain(y.doc)
            && y.log.compensated == x.log.compensated
            && y.log.waited == x.log.waited && y.log.attempts == x.log.attempts + 1
            && (forall k :: k != ResultOf(f) ==> (k in y.doc.results <==> k in x.doc.results))
  {
    CleanAttempt(f, x.doc, x.item, "");
  }

  lemma PlainUndo(x: Execution, c: Compensation)
    requires Plain(x.doc) && x.at == At(Undo(c)) && HasMaps(x.item)
    ensures var y := Step(x, Attempt(NoFault, ""));
            && y.at == At(NextUndo(c)) && HasMaps(y.item) && Plain(y.doc) && y.doc.results == x.doc.results
            && y.log.compensated == x.log.compensated + [c] && y.counters == map[]
            && y.log.waited == x.log.waited && y.log.attempts == x.log.attempts + 1
            && (forall p :: p != Comp(c) ==> EntryOf(y.item, p) == EntryOf(x.item, p))
  {
    CleanUndoReturns(c, x.doc, x.item, "");
    UndoEffect(c, x.doc, x.item, NoFault, "");
  }

  /** ChargePayment's handler finishes but its Lambda times out, so Step Functions sees a failure. */
  lemma ChargeLosesReply(x: Execution)
    requires Plain(x.doc) && x.at == At(Run(ChargePayment)) && HasMaps(x.item)
    ensures var y := Step(x, Attempt(Fault(1, StatesTimeout), ""));
            && y.at == At(Undo(CancelOrder)) && HasMaps(y.item) && Plain(y.doc) && y.doc.results == x.doc.results
            && y.log.compensated == x.log.compensated
            && EntryOf(y.item, Fwd(ChargePayment)).Some? && EntryOf(y.item, Fwd(ChargePayment)).value.mark == DONE
  {
    var d := Definition(Run(ChargePayment));
    CatchAllTakesEverything(Run(ChargePayment), x.counters, StatesTimeout);
    assert !Covers(d.retriers[0].errors, StatesTimeout) && !Covers(d.retriers[1].errors, StatesTimeout);
  }

  const LOST_CHARGE := [Attempt(NoFault, ""), Attempt(NoFault, ""), Attempt(Fault(1, StatesTimeout), ""),
                        Attempt(NoFault, ""), Attempt(NoFault, "")]

  /** The store says the payment was charged, the document does not, the saga ends rolled back,
      and the refund never runs: the converse of DocumentAgreesWithStore fails for every order. */
  lemma LostChargeIsNeverRefunded(doc: Doc)
    requires Plain(doc)
    ensures var x := RunAll(Begin(doc, None), LOST_CHARGE);
            && x.at == At(SagaFailed)
            && EntryOf(x.item, Fwd(ChargePayment)).Some? && EntryOf(x.item, Fwd(ChargePayment)).value.mark == DONE
            && ResultOf(ChargePayment) !in x.doc.results
            && x.log.compensated == [CancelOrder]
            && StatusOf(x.item) == Some(FAILED)
  {
    var e := LOST_CHARGE;
    var x1 := Step(Begin(doc, None), e[0]);
    var x2 := Step(x1, e[1]);
    var x3 := Step(x2, e[2]);
    var x4 := Step(x3, e[3]);
    PlainForward(x1, CreateOrder);
    ChargeLosesReply(x2);
    PlainUndo(x3, CancelOrder);
    PlainMarkFailed(x4);
    FiveSteps(Begin(doc, None), e[0], e[1], e[2], e[3], e[4]);
  }

  lemma PlainMarkFailed(x: Execution)
    requires Plain(x.doc) && x.at == At(MarkFailed)
    ensures var y := Step(x, Attempt(NoFault, ""));
            && y.at == At(SagaFailed) && y.counters == map[] && Plain(y.doc) && (HasMaps(x.item) ==> HasMaps(y.item))
            && y.log.waited == x.log.waited && y.log.attempts == x.log.attempts + 1
            && StatusOf(y.item) == Some(FAILED) && y.log.compensated == x.log.compensated
            && (forall f :: ResultOf(f) in y.doc.results <==> ResultOf(f) in x.doc.results)
            && (forall p :: EntryOf(y.item, p) == EntryOf(x.item, p))
  {
    MarkEffect(MarksFailed, x.doc, x.item, NoFault, "");
  }

  lemma RunCons(x: Execution, e: Event, rest: seq<Event>)
    ensures RunAll(x, [e] + rest) == RunAll(Step(x, e), rest)
  {
    assert ([e] + rest)[1..] == rest;
  }

  lemma FiveSteps(x: Execution, a: Event, b: Event, c: Event, d: Event, e: Event)
    ensures RunAll(x, [a, b, c, d, e]) == Step(Step(Step(Step(Step(x, a), b), c), d), e)
  {
    var x1 := Step(x, a);
    var x2 := Step(x1, b);
    var x3 := Step(x2, c);
    var x4 := Step(x3, d);
    RunCons(x, a, [b, c, d, e]);
    RunCons(x1, b, [c, d, e]);
    RunCons(x2, c, [d, e]);
    RunCons(x3, d, [e]);
    RunCons(x4, e, []);
    assert [a] + [b, c, d, e] == [a, b, c, d, e] && [b] + [c, d, e] == [b, c, d, e];
    assert [c] + [d, e] == [c, d, e] && [d] + [e] == [d, e] && [e] + [] == [e];
  }

  // ------------------------------------------------ the bounds are reached

  /** The attempt fails before its first store call. */
  function Early(e: ErrorName): Event {
    Attempt(Fault(0, e), "")
  }

  /** An environment that exhausts every retrier before it lets a state go on, and makes the last
      forward step fail so that the whole rollback follows. */
  function Adversary(x: Execution): Event {
    if !x.at.At? then Early(StatesTimeout)
    else
      match x.at.state
      case Run(f) =>
        if Used(x.counters, 0) < 3 then Early(SagaTransientError)
        else if Used(x.counters, 1) < 4 then Early(LambdaServiceException)
        else if f.ScheduleShipment? then Early(SagaBusinessError) else Attempt(NoFault, "")
      case Undo(_) => if Used(x.counters, 0) < 5 then Early(StatesTimeout) else Attempt(NoFault, "")
      case MarkFailed => if Used(x.counters, 0) < 4 then Early(StatesTimeout) else Attempt(NoFault, "")
      case _ => Attempt(NoFault, "")
  }

  function AdversaryEvents(x: Execution, n: nat): (r: seq<Event>)
    ensures |r| == n
    decreases n
  {
    if n == 0 then [] else [Adversary(x)] + AdversaryEvents(Step(x, Adversary(x)), n - 1)
  }

  ghost predicate Tight(x: Execution) {
    && Plain(x.doc) && (x.at.At? && x.at.state != InitializeSaga && x.at.state != Run(CreateOrder) ==> HasMaps(x.item))
    && x.at.At? && !x.at.state.CompleteSaga? && !x.at.state.CompensationFailed?
    && x.log.attempts + Left(Attempts, x) == 55
    && x.log.waited + Left(WaitSeconds, x) == 425
    && (forall i :: 2 <= i ==> Used(x.counters, i) == 0)
    && (x.at.state.Run? ==> Used(x.counters, 0) <= 3 && Used(x.counters, 1) <= 4)
    && (x.at.state.Undo? ==> Used(x.counters, 0) <= 5)
    && (x.at.state.MarkFailed? ==> Used(x.counters, 0) <= 4)
  }

  /** Nothing is left here once every retrier of the state is spent. */
  lemma SpentHere(s: StateName, counters: Counters)
    requires s.Run? ==> Used(counters, 0) == 3 && Used(counters, 1) == 4
    requires s.Undo? ==> Used(counters, 0) == 5
    requires s.MarkFailed? ==> Used(counters, 0) == 4
    requires s.Run? || s.Undo? || s.MarkFailed?
    ensures Here(Attempts, s, counters) == 1 && Here(WaitSeconds, s, counters) == 0
  {
    var rs := Definition(s).retriers;
    assert RetriesLeft(rs, counters, |rs|) == 0 && TotalWaitLeft(rs, counters, |rs|) == 0;
    if s.Run? {
      assert RetriesLeft(rs, counters, 1) == 0 && TotalWaitLeft(rs, counters, 1) == 0;
    }
  }

  /** Which retrier the adversary's error hits. */
  lemma AdversaryIsRetried(x: Execution, e: ErrorName)
    requires Tight(x) && !Halted(x) && !x.at.state.InitializeSaga?
    requires Adversary(x) == Attempt(Fault(0, e), "") && e != SagaBusinessError
    ensures var d := Definition(x.at.state);
            OnError(d.retriers, d.catchers, x.counters, e).RetryAfter?
  {
    var d := Definition(x.at.state);
    assert Covers(d.retriers[0].errors, e) || Covers(d.retriers[1].errors, e);
  }

  /** A fault before the first store call changes nothing but counters and log. */
  lemma StallOnly(x: Execution, e: ErrorName)
    requires !Halted(x) && Definition(x.at.state).TaskState? && Plain(x.doc)
    requires x.at.state.Run? || x.at.state.Undo? || x.at.state.MarkFailed?
    ensures var s := x.at.state;
            Step(x, Attempt(Fault(0, e), "")) == OnRaise(Attempted(x, s, x.item), s, e)
  {
  }

  lemma RetryStaysTight(x: Execution, e: ErrorName)
    requires Tight(x) && !Halted(x) && !x.at.state.InitializeSaga?
    requires Adversary(x) == Attempt(Fault(0, e), "") && e != SagaBusinessError
    ensures Tight(Step(x, Adversary(x)))
  {
    var s := x.at.state;
    var y := Attempted(x, s, x.item);
    AdversaryIsRetried(x, e);
    StallOnly(x, e);
    RetrySpends(y, s, e);
    assert Left(Attempts, y) == Left(Attempts, x) && Left(WaitSeconds, y) == Left(WaitSeconds, x);
    RetryCounters(s, x.counters, e);
  }

  /** A retry bumps the counter of the first retrier that covers the error. */
  lemma RetryCounters(s: StateName, counters: Counters, e: ErrorName)
    requires Definition(s).TaskState?
    requires OnError(Definition(s).retriers, Definition(s).catchers, counters, e).RetryAfter?
    ensures var d := Definition(s);
            var c := OnError(d.retriers, d.catchers, counters, e).counters;
            && (forall i :: 2 <= i ==> Used(c, i) == Used(counters, i))
            && (s.Run? ==> (Used(counters, 0) <= 3 ==> Used(c, 0) <= 3) && (Used(counters, 1) <= 4 ==> Used(c, 1) <= 4))
            && (s.Undo? ==> Used(c, 0) <= 5) && (s.MarkFailed? ==> Used(c, 0) <= 4)
  {
  }

  predicate PassesOn(x: Execution) {
    Adversary(x) == Attempt(NoFault, "") || Adversary(x) == Early(SagaBusinessError)
  }

  /** The state the adversary goes on to. */
  function Onward(s: StateName): StateName {
    match s
    case Run(f) => if f.ScheduleShipment? then OnForwardFailure(f) else NextForward(f)
    case Undo(c) => NextUndo(c)
    case MarkFailed => SagaFailed
    case _ => Run(CreateOrder)
  }

  /** From a spent state the adversary takes the exit that costs most. */
  lemma PassOnStaysTight(x: Execution)
    requires Tight(x) && !Halted(x) && PassesOn(x)
    ensures Tight(Step(x, Adversary(x)))
  {
    var y := Step(x, Adversary(x));
    AdversaryMoves(x);
    CostliestExit(Attempts, x, y);
    CostliestExit(WaitSeconds, x, y);
    EnteredTight(x, y, x.at.state);
  }

  lemma EnteredTight(x: Execution, y: Execution, s: StateName)
    requires x.at == At(s) && (s.InitializeSaga? || s.Run? || s.Undo? || s.MarkFailed?)
    requires x.log.attempts + Left(Attempts, x) == 55 && x.log.waited + Left(WaitSeconds, x) == 425
    requires y.at == At(Onward(s)) && y.counters == map[] && Plain(y.doc) && (s.InitializeSaga? || HasMaps(y.item))
    requires y.log.waited + Left(WaitSeconds, y) == x.log.waited + Left(WaitSeconds, x)
    requires y.log.attempts + Left(Attempts, y) == x.log.attempts + Left(Attempts, x)
    ensures Tight(y)
  {
  }

  lemma OnwardIsWorst(r: Resource, s: StateName)
    requires s.InitializeSaga? || s.Run? || s.Undo? || s.MarkFailed?
    ensures Beyond(r, s) == Worst(r, Some(Onward(s)))
  {
  }

  lemma EnteredLeft(r: Resource, y: Execution, s: StateName)
    requires y.at == At(s) && y.counters == map[]
    ensures Left(r, y) == Worst(r, Some(s))
  {
    BudgetIs(r, s);
  }

  lemma CostliestExit(r: Resource, x: Execution, y: Execution)
    requires Tight(x) && !Halted(x) && PassesOn(x)
    requires y.at == At(Onward(x.at.state)) && y.counters == map[]
    ensures Left(r, y) == Left(r, x) - if r.Attempts? && !x.at.state.InitializeSaga? then 1 else 0
  {
    var s := x.at.state;
    OnwardIsWorst(r, s);
    EnteredLeft(r, y, Onward(s));
    if s.InitializeSaga? {
      BudgetIs(r, s);
    } else {
      AllSpent(x);
      SpentHere(s, x.counters);
    }
  }

  lemma AllSpent(x: Execution)
    requires Tight(x) && !Halted(x) && PassesOn(x)
    ensures var c := x.counters;
            match x.at.state
            case Run(_) => Used(c, 0) == 3 && Used(c, 1) == 4
            case Undo(_) => Used(c, 0) == 5
            case MarkFailed => Used(c, 0) == 4
            case _ => x.at.state.InitializeSaga?
  {
  }

  lemma AdversaryMoves(x: Execution)
    requires Tight(x) && !Halted(x) && PassesOn(x)
    ensures var y := Step(x, Adversary(x));
            && y.at == At(Onward(x.at.state))
            && y.counters == map[] && Plain(y.doc) && (x.at.state.InitializeSaga? || HasMaps(y.item))
            && y.log.waited == x.log.waited
            && y.log.attempts == x.log.attempts + if x.at.state.InitializeSaga? then 0 else 1
  {
    match x.at.state
    case Run(f) => AdversaryMovesForward(x, f);
    case Undo(c) =>
      PlainUndo(x, c);
    case MarkFailed => PlainMarkFailed(x);
    case _ =>
  }

  lemma AdversaryMovesForward(x: Execution, f: Forward)
    requires Tight(x) && PassesOn(x) && x.at == At(Run(f))
    ensures var y := Step(x, Adversary(x));
            && y.at == At(Onward(Run(f)))
            && y.counters == map[] && Plain(y.doc) && HasMaps(y.item) && y.log.waited == x.log.waited
            && y.log.attempts == x.log.attempts + 1
  {
    if f.ScheduleShipment? {
      StallOnly(x, SagaBusinessError);
      ForwardVerdict(f, x.counters);
    } else {
      PlainForward(x, f);
    }
  }

  lemma AdversaryStaysTight(x: Execution)
    requires Tight(x)
    ensures Tight(Step(x, Adversary(x)))
  {
    if !Halted(x) {
      if PassesOn(x) {
        PassOnStaysTight(x);
      } else {
        RetryStaysTight(x, Adversary(x).fault.error);
      }
    }
  }

  lemma {:induction false} AdversaryRun(x: Execution, n: nat)
    requires Tight(x)
    ensures Tight(RunAll(x, AdversaryEvents(x, n)))
    decreases n
  {
    if n > 0 {
      var e := Adversary(x);
      var rest := AdversaryEvents(Step(x, e), n - 1);
      RunCons(x, e, rest);
      AdversaryStaysTight(x);
      AdversaryRun(Step(x, e), n - 1);
    }
  }

  lemma StartsTight(doc: Doc)
    requires Plain(doc)
    ensures Tight(Begin(doc, None))
  {
    BudgetIs(Attempts, InitializeSaga);
    BudgetIs(WaitSeconds, InitializeSaga);
  }

  lemma TightEnd(x: Execution)
    requires Tight(x) && Halted(x)
    ensures x.at == At(SagaFailed) && x.log.attempts == 55 && x.log.waited == 425
  {
  }

  lemma AdversaryTight(doc: Doc, n: nat)
    requires Plain(doc)
    ensures Tight(RunAll(Begin(doc, None), AdversaryEvents(Begin(doc, None), n)))
  {
    StartsTight(doc);
    AdversaryRun(Begin(doc, None), n);
  }

  /** The bounds of EveryRunHalts are reached, by any plain order in a hostile environment; Tasks that
      take as long as they may and waits then exceed the execution timeout. */
  lemma BoundsAreReached(doc: Doc)
    requires Plain(doc)
    ensures exists events: seq<Event> ::
              var x := RunAll(Begin(doc, None), events);
              && x.at == At(SagaFailed) && x.log.attempts == 55 && x.log.waited == 425
              && x.log.busy + x.log.waited > EXECUTION_TIMEOUT_SECONDS
  {
    var n := 56;
    var events := AdversaryEvents(Begin(doc, None), n);
    AdversaryTight(doc, n);
    EveryRunHalts(doc, None, events);
    RunIsTimed(doc, None, events);
    TimedAtLeast(RunAll(Begin(doc, None), events));
    TightEnd(RunAll(Begin(doc, None), events));
  }
}
