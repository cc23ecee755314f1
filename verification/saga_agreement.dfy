/** Agreement of the two states of a saga, the execution document and the store's item, and the
    life cycle of the item's status. */
module SagaAgreement {
  import opened StatesLanguage
  import opened SagaRecords
  import opened SagaHandlers
  import opened SagaMachine
  import opened SagaRollback

  // ------------------------------------------------ what one invocation does to the item

  lemma WriteEffect(s: Session, w: Write)
    requires s.Open?
    ensures var t := Do(s, w);
            && (t.Open? ==> t.item == ApplyWrite(s.item, w) && t.item.Some?)
            && (t.Broken? ==> t.item == s.item)
            && (s.fault.Fault? ==> t.fault.Fault? && t.fault.error == s.fault.error)
            && (s.fault == NoFault ==> t.fault == NoFault && (t.Open? <==> ApplyWrite(s.item, w).Some?))
            && (t.Broken? && (HasMaps(s.item) || w.Start? || w.SetStatus?) ==>
                  s.fault.Fault? && t.error == s.fault.error)
  {
  }

  /** A forward handler after validation and `start`. */
  lemma AfterStartEffect(f: Forward, doc: Doc, order: Order, s: Session, suffix: string)
    requires s.Open? && HasMaps(s.item)
    ensures var (t, reply) := AfterStart(f, doc, order, s, suffix);
            && HasMaps(t.item)
            && StatusOf(t.item) == StatusOf(s.item)
            && (forall p :: p != Fwd(f) ==> EntryOf(t.item, p) == EntryOf(s.item, p))
            && (t.fault.Fault? <==> s.fault.Fault?)
            && (t.fault.Fault? ==> t.fault.error == s.fault.error)
            && (reply.Returned? ==>
                  reply.output == OutputFor(f, order, suffix) &&
                  EntryOf(t.item, Fwd(f)) == Some(Entry(DONE, DetailFor(reply.output))))
            && (reply.Raised? ==>
                  EntryOf(t.item, Fwd(f)) == EntryOf(s.item, Fwd(f)) &&
                  (reply.error == ClientError ==> s.fault.Fault? && s.fault.error == ClientError))
  {
    var s1 := InjectTransient(f, doc, s);
    assert s1.item.Some? && s1.item.value.steps == s.item.value.steps && s1.item.value.status == s.item.value.status;
    if s1.Open? {
      WriteEffect(s1, RecordStep(Fwd(f), Entry(DONE, DetailFor(OutputFor(f, order, suffix)))));
    }
  }

  /** The forward handlers but create_order, on an item that `start` has created. */
  lemma ForwardEffect(f: Forward, doc: Doc, item: Option<Record>, fault: Fault, suffix: string)
    requires !f.CreateOrder? && HasMaps(item)
    ensures var (after, reply) := Invoke(Forwards(f), doc, item, fault, suffix);
            && HasMaps(after)
            && StatusOf(after) == StatusOf(item)
            && (forall p :: p != Fwd(f) ==> EntryOf(after, p) == EntryOf(item, p))
            && (reply.Returned? ==>
                  fault == NoFault && doc.order.Some? && reply.output == OutputFor(f, doc.order.value, suffix) &&
                  EntryOf(after, Fwd(f)) == Some(Entry(DONE, DetailFor(reply.output))))
            && (reply.Raised? && !LosesReply(Forwards(f), doc, item, fault, suffix) ==>
                  EntryOf(after, Fwd(f)) == EntryOf(item, Fwd(f)))
            && (LosesReply(Forwards(f), doc, item, fault, suffix) ==> EntryOf(after, Fwd(f)).Some? && reply.Raised?)
            && (reply == Raised(ClientError) ==> fault.Fault? && fault.error == ClientError)
  {
    if doc.order.Some? {
      AfterStartEffect(f, doc, doc.order.value, Open(item, fault), suffix);
    }
  }

  /** The handler ran to its return statement, but Step Functions is told it failed. */
  predicate LosesReply(h: Handler, doc: Doc, item: Option<Record>, fault: Fault, suffix: string) {
    fault.Fault? && Call(h, doc, Open(item, fault), suffix).1.Returned?
  }

  /** create_order got past validation and its `start` reached the table. */
  predicate Restarts(doc: Doc, fault: Fault) {
    doc.order.Some? && Sellable(doc.order.value) && (fault.Fault? ==> fault.after > 0)
  }

  lemma CreateEffect(doc: Doc, item: Option<Record>, fault: Fault, suffix: string)
    ensures var (after, reply) := Invoke(Forwards(CreateOrder), doc, item, fault, suffix);
            && (Restarts(doc, fault) ==>
                  HasMaps(after) && StatusOf(after) == Some(STARTED) &&
                  forall p :: p != Fwd(CreateOrder) ==> EntryOf(after, p) == None)
            && (!Restarts(doc, fault) ==> after == item && reply.Raised?)
            && (reply.Returned? ==>
                  fault == NoFault && doc.order.Some? && Sellable(doc.order.value) &&
                  reply.output == OutputFor(CreateOrder, doc.order.value, suffix) &&
                  EntryOf(after, Fwd(CreateOrder)) == Some(Entry(DONE, DetailFor(reply.output))))
            && (reply.Raised? && Restarts(doc, fault) ==>
                  (EntryOf(after, Fwd(CreateOrder)).Some? <==>
                   LosesReply(Forwards(CreateOrder), doc, item, fault, suffix)))
            && (LosesReply(Forwards(CreateOrder), doc, item, fault, suffix) ==> Restarts(doc, fault) && reply.Raised?)
            && (reply == Raised(ClientError) ==> fault.Fault? && fault.error == ClientError)
  {
    if Restarts(doc, fault) {
      var start := Start(InfoOf(doc.order.value));
      var s1 := Do(Open(item, fault), start);
      WriteEffect(Open(item, fault), start);
      AfterStartEffect(CreateOrder, doc, doc.order.value, s1, suffix);
      assert s1.Open? && EntryOf(s1.item, Fwd(CreateOrder)) == None;
    }
  }

  lemma UndoEffect(c: Compensation, doc: Doc, item: Option<Record>, fault: Fault, suffix: string)
    requires HasMaps(item)
    ensures var (after, reply) := Invoke(Undoes(c), doc, item, fault, suffix);
            && HasMaps(after)
            && (StatusOf(after) == StatusOf(item) || StatusOf(after) == Some(COMPENSATING))
            && (forall p :: p != Comp(c) ==> EntryOf(after, p) == EntryOf(item, p))
            && (EntryOf(after, Comp(c)) == EntryOf(item, Comp(c)) ||
                EntryOf(after, Comp(c)) == Some(CompensationEntry(c, doc)))
            && (reply.Returned? ==>
                  fault == NoFault && doc.order.Some? &&
                  StatusOf(after) == Some(COMPENSATING) &&
                  EntryOf(after, Comp(c)) == Some(CompensationEntry(c, doc)) &&
                  reply.output == CompensationOutput(c, doc, doc.order.value))
            && (reply == Raised(ClientError) ==> fault.Fault? && fault.error == ClientError)
  {
    if doc.order.Some? {
      var s := Open(item, fault);
      var s1 := Do(s, SetStatus(COMPENSATING));
      WriteEffect(s, SetStatus(COMPENSATING));
      if s1.Open? {
        assert HasMaps(s1.item) && s1.item.value.steps == item.value.steps;
        WriteEffect(s1, RecordStep(Comp(c), CompensationEntry(c, doc)));
      }
    }
  }

  lemma MarkEffect(h: Handler, doc: Doc, item: Option<Record>, fault: Fault, suffix: string)
    requires h.Completes? || h.MarksFailed?
    ensures var (after, reply) := Invoke(h, doc, item, fault, suffix);
            var mark := if h.Completes? then COMPLETED else FAILED;
            && (StatusOf(after) == StatusOf(item) || StatusOf(after) == Some(mark))
            && (forall p :: EntryOf(after, p) == EntryOf(item, p))
            && (HasMaps(item) ==> HasMaps(after))
            && (reply.Returned? ==> fault == NoFault && doc.order.Some? && StatusOf(after) == Some(mark))
            && (reply == Raised(ClientError) ==> fault.Fault? && fault.error == ClientError)
  {
  }

  // ------------------------------------------------ the agreement invariant

  /** The forward step a compensation undoes. */
  function Undone(c: Compensation): Forward {
    match c
    case ReleaseInventory => ReserveInventory
    case RefundPayment => ChargePayment
    case CancelOrder => CreateOrder
  }

  /** A result of the right shape, with an identifier that is not empty. */
  predicate Genuine(f: Forward, output: Output) {
    match f
    case CreateOrder => output.OrderPlaced?
    case ChargePayment => output.PaymentCharged? && output.paymentId != ""
    case ReserveInventory => output.InventoryReserved? && output.reservationId != ""
    case ScheduleShipment => output.ShipmentScheduled? && output.shipmentId != ""
  }

  /** The entry a compensation must leave: DONE, naming what the forward Task returned. */
  function RightEntry(c: Compensation, returned: map<Forward, Output>): Entry {
    if c.CancelOrder? || Undone(c) !in returned then Entry(DONE, NoDetail)
    else Entry(DONE, DetailFor(returned[Undone(c)]))
  }

  /** Document, store and the value the Task returned are the same for a successful step. */
  ghost predicate Settled(x: Execution, f: Forward) {
    && f in x.log.returned && Genuine(f, x.log.returned[f])
    && ResultOf(f) in x.doc.results && x.doc.results[ResultOf(f)] == x.log.returned[f]
    && EntryOf(x.item, Fwd(f)) == Some(Entry(DONE, DetailFor(x.log.returned[f])))
  }

  /** InitializeSaga has run. */
  predicate Seeded(x: Execution) {
    x.log.attempts > 0 || (x.at.At? && !x.at.state.InitializeSaga?)
  }

  ghost predicate Agreed(x: Execution) {
    var done := x.log.succeeded;
    && (x.at == At(InitializeSaga) ==> x.log.attempts == 0)
    && (Seeded(x) ==> forall f :: ResultOf(f) in x.doc.results ==> f in done)
    && (forall f :: f in done ==> Settled(x, f))
    && (done != [] ==> HasMaps(x.item))
    && (done != [] ==> forall c :: EntryOf(x.item, Comp(c)).Some? ==>
                         Undone(c) in done && EntryOf(x.item, Comp(c)) == Some(RightEntry(c, x.log.returned)))
  }

  lemma {:induction false} CompensatorHasForward(done: seq<Forward>, c: Compensation)
    requires c in Compensators(done)
    ensures Undone(c) in done
  {
    var last := done[|done| - 1];
    if c !in CompensatorOf(last) {
      CompensatorHasForward(done[..|done| - 1], c);
    }
  }

  /** On the rollback path the step to be undone has succeeded. */
  lemma UndoneSucceeded(x: Execution, c: Compensation)
    requires Ordered(x) && x.at == At(Undo(c))
    ensures Undone(c) in x.log.succeeded
  {
    var k := |x.log.compensated|;
    assert (x.log.compensated + UndoChain(c))[k] == c;
    CompensatorHasForward(x.log.succeeded, c);
  }

  lemma NotYetDone(x: Execution, f: Forward)
    requires Ordered(x) && x.at == At(Run(f))
    ensures f !in x.log.succeeded
    ensures f.CreateOrder? <==> x.log.succeeded == []
  {
  }

  /** What the outcome of an attempt does to document and log, apart from the position. */
  lemma RaiseLeavesResults(y: Execution, s: StateName, e: ErrorName)
    requires y.at == At(s) && Definition(s).TaskState?
    ensures var z := OnRaise(y, s, e);
            && z.doc.results == y.doc.results && z.item == y.item && z.doc.order == y.doc.order
            && z.log.succeeded == y.log.succeeded && z.log.returned == y.log.returned
            && z.log.compensated == y.log.compensated
            && z.at != At(InitializeSaga)
  {
    if s.Run? || s.Undo? { CatchAllTakesEverything(s, y.counters, e); }
  }

  lemma ForwardKeepsAgreement(x: Execution, f: Forward, fault: Fault, suffix: string)
    requires Ordered(x) && Agreed(x) && x.at == At(Run(f))
    ensures Agreed(RunTask(x, Run(f), fault, suffix))
  {
    var (after, reply) := Invoke(Forwards(f), x.doc, x.item, fault, suffix);
    var y := Attempted(x, Run(f), after);
    NotYetDone(x, f);
    if f.CreateOrder? { CreateEffect(x.doc, x.item, fault, suffix); }
    else { ForwardEffect(f, x.doc, x.item, fault, suffix); }
    if reply.Raised? {
      RaiseLeavesResults(y, Run(f), reply.error);
    } else {
      ForwardReturnAgrees(y, f, reply.output);
    }
  }

  lemma ForwardReturnAgrees(y: Execution, f: Forward, output: Output)
    requires y.at == At(Run(f)) && f !in y.log.succeeded
    requires HasMaps(y.item) && EntryOf(y.item, Fwd(f)) == Some(Entry(DONE, DetailFor(output))) && Genuine(f, output)
    requires forall g :: ResultOf(g) in y.doc.results ==> g in y.log.succeeded
    requires forall g :: g in y.log.succeeded ==> Settled(y, g)
    requires forall c :: EntryOf(y.item, Comp(c)).Some? ==>
               Undone(c) in y.log.succeeded && EntryOf(y.item, Comp(c)) == Some(RightEntry(c, y.log.returned))
    ensures Agreed(OnReturn(y, Run(f), output))
  {
    var z := OnReturn(y, Run(f), output);
    assert z.log.succeeded == y.log.succeeded + [f];
    forall g | g in z.log.succeeded ensures Settled(z, g) {
      if g != f { assert Settled(y, g); }
    }
  }

  lemma UndoKeepsAgreement(x: Execution, c: Compensation, fault: Fault, suffix: string)
    requires Ordered(x) && Agreed(x) && x.at == At(Undo(c))
    ensures Agreed(RunTask(x, Undo(c), fault, suffix))
  {
    var (after, reply) := Invoke(Undoes(c), x.doc, x.item, fault, suffix);
    var y := Attempted(x, Undo(c), after);
    UndoAttemptAgrees(x, c, fault, suffix);
    if reply.Raised? {
      RaiseLeavesResults(y, Undo(c), reply.error);
      OthersKeepAgreement(y, OnRaise(y, Undo(c), reply.error));
    } else {
      OthersKeepAgreement(y, OnReturn(y, Undo(c), reply.output));
    }
  }

  lemma UndoAttemptAgrees(x: Execution, c: Compensation, fault: Fault, suffix: string)
    requires Ordered(x) && Agreed(x) && x.at == At(Undo(c))
    ensures Agreed(Attempted(x, Undo(c), Invoke(Undoes(c), x.doc, x.item, fault, suffix).0))
  {
    var y := Attempted(x, Undo(c), Invoke(Undoes(c), x.doc, x.item, fault, suffix).0);
    UndoneSucceeded(x, c);
    UndoEffect(c, x.doc, x.item, fault, suffix);
    TargetIsRight(x, c);
    assert forall f :: f in y.log.succeeded ==> Settled(x, f) && Settled(y, f);
  }

  /** Moving on without touching results, item or successes. */
  lemma OthersKeepAgreement(y: Execution, z: Execution)
    requires Agreed(y) && Seeded(y) && z.at != At(InitializeSaga)
    requires z.item == y.item && z.log.succeeded == y.log.succeeded && z.log.returned == y.log.returned
    requires forall f :: (ResultOf(f) in z.doc.results <==> ResultOf(f) in y.doc.results) &&
               (ResultOf(f) in y.doc.results ==> z.doc.results[ResultOf(f)] == y.doc.results[ResultOf(f)])
    ensures Agreed(z)
  {
    assert forall f :: f in z.log.succeeded ==> Settled(y, f) && Settled(z, f);
  }

  /** A compensation finds exactly what the successful forward Task returned. */
  lemma TargetIsRight(x: Execution, c: Compensation)
    requires Agreed(x) && Undone(c) in x.log.succeeded
    ensures CompensationEntry(c, x.doc) == RightEntry(c, x.log.returned)
    ensures x.doc.order.Some? ==> CompensationOutput(c, x.doc, x.doc.order.value) != Skipped
  {
    assert Settled(x, Undone(c));
  }

  lemma MarkKeepsAgreement(x: Execution, s: StateName, fault: Fault, suffix: string)
    requires Agreed(x) && x.at == At(s) && (s.CompleteSaga? || s.MarkFailed?)
    ensures Agreed(RunTask(x, s, fault, suffix))
  {
    var (after, reply) := Invoke(Definition(s).handler, x.doc, x.item, fault, suffix);
    var y := Attempted(x, s, after);
    MarkEffect(Definition(s).handler, x.doc, x.item, fault, suffix);
    assert forall f :: f in y.log.succeeded ==> Settled(x, f) && Settled(y, f);
    if reply.Raised? {
      RaiseLeavesResults(y, s, reply.error);
      OthersKeepAgreement(y, OnRaise(y, s, reply.error));
    } else {
      OthersKeepAgreement(y, OnReturn(y, s, reply.output));
    }
  }

  lemma StepKeepsAgreement(x: Execution, e: Event)
    requires Ordered(x) && Agreed(x)
    ensures Agreed(Step(x, e))
  {
    if !Halted(x) && e.Attempt? {
      match x.at.state
      case Run(f) => ForwardKeepsAgreement(x, f, e.fault, e.suffix);
      case Undo(c) => UndoKeepsAgreement(x, c, e.fault, e.suffix);
      case CompleteSaga => MarkKeepsAgreement(x, CompleteSaga, e.fault, e.suffix);
      case MarkFailed => MarkKeepsAgreement(x, MarkFailed, e.fault, e.suffix);
      case _ =>
    } else {
      assert forall f :: f in x.log.succeeded ==> Settled(x, f);
    }
  }

  lemma {:induction false} RunKeepsAgreement(x: Execution, events: seq<Event>)
    requires Ordered(x) && Agreed(x)
    ensures Ordered(RunAll(x, events)) && Agreed(RunAll(x, events))
    decreases |events|
  {
    if events != [] {
      StepKeepsOrder(x, events[0]);
      StepKeepsAgreement(x, events[0]);
      RunKeepsAgreement(Step(x, events[0]), events[1..]);
    }
  }

  lemma ReachableAgrees(doc: Doc, item: Option<Record>, events: seq<Event>)
    ensures Ordered(RunAll(Begin(doc, item), events)) && Agreed(RunAll(Begin(doc, item), events))
  {
    assert Ordered(Begin(doc, item)) && Agreed(Begin(doc, item));
    RunKeepsAgreement(Begin(doc, item), events);
  }

  /** Once InitializeSaga has run, the document holds results for exactly the steps whose Task
      succeeded, and for each of them the store says DONE with the identifier that the Task
      returned, even when earlier attempts of the step lost their replies. */
  lemma DocumentAgreesWithStore(doc: Doc, item: Option<Record>, events: seq<Event>, f: Forward)
    ensures var x := RunAll(Begin(doc, item), events);
            Seeded(x) ==>
              (ResultOf(f) in x.doc.results <==> f in x.log.succeeded) &&
              (ResultOf(f) in x.doc.results ==>
                 EntryOf(x.item, Fwd(f)) == Some(Entry(DONE, DetailFor(x.doc.results[ResultOf(f)]))))
  {
    ReachableAgrees(doc, item, events);
  }

  /** Whatever the input and the faults, a compensation attempt names exactly what the successful
      forward Task returned: it is never SKIPPED, and the store never records another target. */
  lemma CompensationHitsItsTarget(doc: Doc, item: Option<Record>, events: seq<Event>, c: Compensation, e: Event)
    requires e.Attempt?
    ensures var x := RunAll(Begin(doc, item), events);
            x.at == At(Undo(c)) ==>
              var (after, reply) := Invoke(Undoes(c), x.doc, x.item, e.fault, e.suffix);
              && Undone(c) in x.log.returned && Genuine(Undone(c), x.log.returned[Undone(c)])
              && (EntryOf(after, Comp(c)).Some? ==>
                    EntryOf(after, Comp(c)) == Some(RightEntry(c, x.log.returned)))
              && (reply.Returned? ==> EntryOf(after, Comp(c)).Some? && reply.output != Skipped)
  {
    ReachableAgrees(doc, item, events);
    var x := RunAll(Begin(doc, item), events);
    if x.at == At(Undo(c)) {
      UndoneSucceeded(x, c);
      UndoEffect(c, x.doc, x.item, e.fault, e.suffix);
      TargetIsRight(x, c);
      assert Settled(x, Undone(c));
    }
  }

  /** Every nested write of every run finds its parent map: the store refuses no update, so a
      ClientError is reported only when the environment itself reports one. */
  lemma NestedWritesResolve(doc: Doc, item: Option<Record>, events: seq<Event>, e: Event)
    requires e.Attempt?
    ensures var x := RunAll(Begin(doc, item), events);
            !Halted(x) && Definition(x.at.state).TaskState? &&
            Invoke(Definition(x.at.state).handler, x.doc, x.item, e.fault, e.suffix).1 == Raised(ClientError) ==>
              e.fault.Fault? && e.fault.error == ClientError
  {
    ReachableAgrees(doc, item, events);
    var x := RunAll(Begin(doc, item), events);
    if !Halted(x) {
      match x.at.state
      case Run(f) =>
        NotYetDone(x, f);
        if f.CreateOrder? { CreateEffect(x.doc, x.item, e.fault, e.suffix); }
        else { ForwardEffect(f, x.doc, x.item, e.fault, e.suffix); }
      case Undo(c) =>
        UndoneSucceeded(x, c);
        UndoEffect(c, x.doc, x.item, e.fault, e.suffix);
      case CompleteSaga => MarkEffect(Completes, x.doc, x.item, e.fault, e.suffix);
      case MarkFailed => MarkEffect(MarksFailed, x.doc, x.item, e.fault, e.suffix);
      case _ =>
    }
  }
}
