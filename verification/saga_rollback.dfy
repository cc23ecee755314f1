/** Compensation order: in every run, what has been undone is a prefix of the reversed list of
    what succeeded, and all of it when the saga ends rolled back. */
module SagaRollback {
  import opened StatesLanguage
  import opened SagaRecords
  import opened SagaHandlers
  import opened SagaMachine

  /** create -> cancel, charge -> refund, reserve -> release; a shipment has no compensation. */
  function CompensatorOf(f: Forward): seq<Compensation> {
    match f
    case CreateOrder => [CancelOrder]
    case ChargePayment => [RefundPayment]
    case ReserveInventory => [ReleaseInventory]
    case ScheduleShipment => []
  }

  /** The compensations of a list of forward steps, last step first. */
  function Compensators(done: seq<Forward>): seq<Compensation> {
    if done == [] then []
    else CompensatorOf(done[|done| - 1]) + Compensators(done[..|done| - 1])
  }

  const FORWARD_CHAIN := [CreateOrder, ChargePayment, ReserveInventory, ScheduleShipment]

  function Rank(f: Forward): nat {
    match f
    case CreateOrder => 0
    case ChargePayment => 1
    case ReserveInventory => 2
    case ScheduleShipment => 3
  }

  function Before(f: Forward): seq<Forward> {
    FORWARD_CHAIN[..Rank(f)]
  }

  /** The compensations still to run from `c` on. */
  function UndoChain(c: Compensation): seq<Compensation> {
    match c
    case ReleaseInventory => [ReleaseInventory, RefundPayment, CancelOrder]
    case RefundPayment => [RefundPayment, CancelOrder]
    case CancelOrder => [CancelOrder]
  }

  /** What is still to be undone once a state is entered on the rollback path. */
  function StillToUndo(s: StateName): seq<Compensation> {
    if s.Undo? then UndoChain(s.c) else []
  }

  predicate RollingBack(x: Execution, rest: seq<Compensation>) {
    x.log.compensated + rest == Compensators(x.log.succeeded)
  }

  ghost predicate Ordered(x: Execution) {
    && x.log.succeeded <= FORWARD_CHAIN
    && x.log.compensated <= Compensators(x.log.succeeded)
    && match x.at
       case Succeeded => x.log.succeeded == FORWARD_CHAIN && x.log.compensated == []
       case Failed(_) =>
         if x.log.succeeded == FORWARD_CHAIN then x.log.compensated == [] else RollingBack(x, [])
       case TimedOut => true
       case At(s) =>
         match s
         case InitializeSaga => x.log.succeeded == [] && x.log.compensated == []
         case Run(f) => x.log.succeeded == Before(f) && x.log.compensated == []
         case CompleteSaga => x.log.succeeded == FORWARD_CHAIN && x.log.compensated == []
         case Undo(c) => RollingBack(x, StillToUndo(s)) && x.log.succeeded != FORWARD_CHAIN
         case MarkFailed => RollingBack(x, []) && x.log.succeeded != FORWARD_CHAIN
         case SagaFailed => RollingBack(x, []) && x.log.succeeded != FORWARD_CHAIN
         case CompensationFailed =>
           x.log.compensated < Compensators(x.log.succeeded) && x.log.succeeded != FORWARD_CHAIN
  }

  lemma CompensatorsSnoc(done: seq<Forward>, f: Forward)
    ensures Compensators(done + [f]) == CompensatorOf(f) + Compensators(done)
  {
    assert (done + [f])[..|done|] == done;
  }

  /** Each Catch edge enters the reverse chain exactly at the compensation of the last success. */
  lemma CatchEntersReverseChain(f: Forward)
    ensures StillToUndo(OnForwardFailure(f)) == Compensators(Before(f))
  {
    var c1, c2, c3 := [CreateOrder], [CreateOrder, ChargePayment], [CreateOrder, ChargePayment, ReserveInventory];
    CompensatorsSnoc([], CreateOrder);
    CompensatorsSnoc(c1, ChargePayment);
    CompensatorsSnoc(c2, ReserveInventory);
    assert [] + [CreateOrder] == c1 && c1 + [ChargePayment] == c2 && c2 + [ReserveInventory] == c3;
    match f
    case CreateOrder => assert Before(f) == [];
    case ChargePayment => assert Before(f) == c1;
    case ReserveInventory => assert Before(f) == c2;
    case ScheduleShipment => assert Before(f) == c3;
  }

  lemma NextAfterForward(f: Forward)
    ensures match NextForward(f)
            case Run(g) => Before(f) + [f] == Before(g)
            case _ => Before(f) + [f] == FORWARD_CHAIN
  {
  }

  lemma NextAfterUndo(c: Compensation)
    ensures UndoChain(c) == [c] + StillToUndo(NextUndo(c))
  {
  }

  lemma ForwardReturnKeepsOrder(x: Execution, f: Forward, output: Output)
    requires Ordered(x) && x.at == At(Run(f))
    ensures Ordered(OnReturn(x, Run(f), output))
  {
    NextAfterForward(f);
  }

  lemma UndoReturnKeepsOrder(x: Execution, c: Compensation, output: Output)
    requires Ordered(x) && x.at == At(Undo(c))
    ensures Ordered(OnReturn(x, Undo(c), output))
  {
    NextAfterUndo(c);
    var rest := StillToUndo(NextUndo(c));
    assert x.log.compensated + UndoChain(c) == (x.log.compensated + [c]) + rest;
    assert x.log.compensated + [c] <= Compensators(x.log.succeeded);
    assert rest == [] ==> x.log.compensated + [c] + rest == x.log.compensated + [c];
  }

  lemma ReturnKeepsOrder(x: Execution, s: StateName, output: Output)
    requires Ordered(x) && x.at == At(s) && Definition(s).TaskState?
    ensures Ordered(OnReturn(x, s, output))
  {
    if s.Run? {
      ForwardReturnKeepsOrder(x, s.f, output);
    } else if s.Undo? {
      UndoReturnKeepsOrder(x, s.c, output);
    }
  }

  /** A single States.ALL catcher takes every error that is not retried. */
  lemma CatchAllTakesEverything(s: StateName, counters: Counters, e: ErrorName)
    requires Definition(s).TaskState? && Definition(s).catchers != []
    ensures var d := Definition(s);
            var v := OnError(d.retriers, d.catchers, counters, e);
            v.RetryAfter? || v == CaughtBy(d.catchers[0].action)
  {
    var d := Definition(s);
    assert |d.catchers| == 1 && d.catchers[0].errors == [AllErrors];
    assert Covers(d.catchers[0].errors, e);
  }

  lemma ForwardRaiseKeepsOrder(x: Execution, f: Forward, e: ErrorName)
    requires Ordered(x) && x.at == At(Run(f))
    ensures Ordered(OnRaise(x, Run(f), e))
  {
    CatchAllTakesEverything(Run(f), x.counters, e);
    CatchEntersReverseChain(f);
  }

  lemma UndoRaiseKeepsOrder(x: Execution, c: Compensation, e: ErrorName)
    requires Ordered(x) && x.at == At(Undo(c))
    ensures Ordered(OnRaise(x, Undo(c), e))
  {
    CatchAllTakesEverything(Undo(c), x.counters, e);
    NextAfterUndo(c);
  }

  lemma MarkRaiseKeepsOrder(x: Execution, s: StateName, e: ErrorName)
    requires Ordered(x) && x.at == At(s) && (s.CompleteSaga? || s.MarkFailed?)
    ensures Ordered(OnRaise(x, s, e))
  {
  }

  lemma RaiseKeepsOrder(x: Execution, s: StateName, e: ErrorName)
    requires Ordered(x) && x.at == At(s) && Definition(s).TaskState?
    ensures Ordered(OnRaise(x, s, e))
  {
    match s
    case Run(f) => ForwardRaiseKeepsOrder(x, f, e);
    case Undo(c) => UndoRaiseKeepsOrder(x, c, e);
    case CompleteSaga => MarkRaiseKeepsOrder(x, s, e);
    case MarkFailed => MarkRaiseKeepsOrder(x, s, e);
    case _ =>
  }

  lemma StepKeepsOrder(x: Execution, e: Event)
    requires Ordered(x)
    ensures Ordered(Step(x, e))
  {
    if x.at.At? && e.Attempt? && Definition(x.at.state).TaskState? {
      var s := x.at.state;
      var r := Invoke(Definition(s).handler, x.doc, x.item, e.fault, e.suffix);
      var y := Attempted(x, s, r.0);
      if r.1.Returned? {
        ReturnKeepsOrder(y, s, r.1.output);
      } else {
        RaiseKeepsOrder(y, s, r.1.error);
      }
    }
  }

  lemma {:induction false} RunKeepsOrder(x: Execution, events: seq<Event>)
    requires Ordered(x)
    ensures Ordered(RunAll(x, events))
    decreases |events|
  {
    if events != [] {
      StepKeepsOrder(x, events[0]);
      RunKeepsOrder(Step(x, events[0]), events[1..]);
    }
  }

  /** The state in which the execution timeout finds the machine, if it does. */
  function CutIn(x: Execution, events: seq<Event>): Option<StateName>
    decreases |events|
  {
    if events == [] || Halted(x) then None
    else if events[0].ExecutionTimeout? then Some(x.at.state)
    else CutIn(Step(x, events[0]), events[1..])
  }

  /** In these states nothing that succeeded is still to be undone. */
  predicate NothingToUndo(s: StateName) {
    s.InitializeSaga? || s == Run(CreateOrder) || s.MarkFailed?
  }

  lemma {:induction false} StopsAtCut(x: Execution, events: seq<Event>)
    requires !x.at.TimedOut?
    ensures CutIn(x, events).None? <==> !RunAll(x, events).at.TimedOut?
    decreases |events|
  {
    if events != [] {
      if Halted(x) {
        StopsAtCut(x, events[1..]);
      } else if events[0].ExecutionTimeout? {
        HaltedStays(Step(x, events[0]), events[1..]);
      } else {
        StepDoesNotTimeOut(x, events[0]);
        StopsAtCut(Step(x, events[0]), events[1..]);
      }
    }
  }

  lemma {:induction false} HaltedStays(x: Execution, events: seq<Event>)
    requires Halted(x)
    ensures RunAll(x, events) == x
    decreases |events|
  {
    if events != [] { HaltedStays(x, events[1..]); }
  }

  lemma StepDoesNotTimeOut(x: Execution, e: Event)
    requires !x.at.TimedOut? && e.Attempt?
    ensures !Step(x, e).at.TimedOut?
  {
  }

  /** Where the rollback stands in a running state: it is complete, or has nothing to do, in exactly
      the states with nothing to undo. */
  lemma RunningRollback(x: Execution)
    requires Ordered(x) && !Halted(x)
    ensures x.log.compensated == Compensators(x.log.succeeded) <==> NothingToUndo(x.at.state)
  {
    FullChainHasCompensators();
    assert x.log.compensated + [] == x.log.compensated;
    match x.at.state
    case Run(f) => CatchEntersReverseChain(f);
    case _ =>
  }

  lemma {:induction false} CutRollback(x: Execution, events: seq<Event>)
    requires Ordered(x) && !x.at.TimedOut?
    ensures var y := RunAll(x, events);
            y.at == TimedOut ==>
              && CutIn(x, events).Some?
              && (y.log.compensated == Compensators(y.log.succeeded) <==> NothingToUndo(CutIn(x, events).value))
    decreases |events|
  {
    if events != [] {
      if Halted(x) {
        HaltedStays(x, events);
      } else if events[0].ExecutionTimeout? {
        RunningRollback(x);
        HaltedStays(Step(x, events[0]), events[1..]);
      } else {
        StepDoesNotTimeOut(x, events[0]);
        StepKeepsOrder(x, events[0]);
        CutRollback(Step(x, events[0]), events[1..]);
      }
    }
  }

  /** All four steps leave three compensations to run. */
  lemma FullChainHasCompensators()
    ensures Compensators(FORWARD_CHAIN) == [ReleaseInventory, RefundPayment, CancelOrder]
  {
    var c3 := [CreateOrder, ChargePayment, ReserveInventory];
    assert c3 + [ScheduleShipment] == FORWARD_CHAIN && Before(ScheduleShipment) == c3;
    CompensatorsSnoc(c3, ScheduleShipment);
    CatchEntersReverseChain(ScheduleShipment);
  }

  /** For every input, every initial store item and every sequence of attempt outcomes:
      compensations happen in the reverse order of the forward successes, never ahead of
      them, and the rollback is complete exactly where the machine says so. An execution that
      fails because CompleteSaga or MarkFailed ran out of retries is rolled back if and only if not
      all four steps had succeeded; one that the execution timeout cuts is rolled back if and only
      if it was cut before the first step had succeeded or after the last compensation. */
  lemma CompensationReversesSuccess(doc: Doc, item: Option<Record>, events: seq<Event>)
    ensures var x := RunAll(Begin(doc, item), events);
            && x.log.succeeded <= FORWARD_CHAIN
            && x.log.compensated <= Compensators(x.log.succeeded)
            && (x.at == At(SagaFailed) ==> x.log.compensated == Compensators(x.log.succeeded))
            && (x.at == At(CompensationFailed) ==> x.log.compensated != Compensators(x.log.succeeded))
            && (x.at == Succeeded ==> x.log.succeeded == FORWARD_CHAIN && x.log.compensated == [])
            && (x.at.Failed? ==>
                  (x.log.compensated == Compensators(x.log.succeeded) <==> x.log.succeeded != FORWARD_CHAIN) &&
                  (x.log.succeeded == FORWARD_CHAIN ==> x.log.compensated == []))
            && (x.at == TimedOut <==> CutIn(Begin(doc, item), events).Some?)
            && (x.at == TimedOut ==>
                  (x.log.compensated == Compensators(x.log.succeeded) <==>
                   NothingToUndo(CutIn(Begin(doc, item), events).value)))
  {
    StopsAtCut(Begin(doc, item), events);
    CutRollback(Begin(doc, item), events);
    assert Ordered(Begin(doc, item));
    RunKeepsOrder(Begin(doc, item), events);
    FullChainHasCompensators();
    var x := RunAll(Begin(doc, item), events);
    assert x.log.compensated + [] == x.log.compensated;
  }
}
