/** What one attempt of each saga state means, in the terms of the workflow definition: which errors
    are retried, after how long, where the others lead, and what the document and the item then hold. */
module SagaReactions {
  import opened StatesLanguage
  import opened SagaRecords
  import opened SagaHandlers
  import opened SagaMachine
  import opened SagaRollback
  import opened SagaAgreement

  // ------------------------------------------------ errors

  /** The verdict on an error of a forward step: transient errors are retried three times after 2, 4
      and 8 seconds, the four Lambda service errors four times after 1, 2, 4 and 8, nothing else. */
  lemma ForwardErrors(f: Forward, counters: Counters, e: ErrorName)
    ensures var d := Definition(Run(f));
            var (a, b) := (Used(counters, 0), Used(counters, 1));
            OnError(d.retriers, d.catchers, counters, e) ==
              if e.SagaTransientError? && a < 3 then RetryAfter(2 * Pow(2, a), counters[0 := a + 1])
              else if ServiceError(e) && b < 4 then RetryAfter(Pow(2, b), counters[1 := b + 1])
              else CaughtBy(Fallback(ErrorPath, OnForwardFailure(f)))
  {
    CatchAllTakesEverything(Run(f), counters, e);
    ForwardRule(f, e);
  }

  lemma ForwardRule(f: Forward, e: ErrorName)
    ensures FirstRule(Definition(Run(f)).retriers, e) ==
              if e.SagaTransientError? then Some(0) else if ServiceError(e) then Some(1) else None
  {
    var rs := Definition(Run(f)).retriers;
    assert Covers(rs[0].errors, e) <==> e.SagaTransientError?;
    assert Covers(rs[1].errors, e) <==> ServiceError(e);
  }

  /** A compensation is retried five times on any error, after 3, 6, 12, 24 and 48 seconds. */
  lemma CompensationErrors(c: Compensation, counters: Counters, e: ErrorName)
    ensures var d := Definition(Undo(c));
            var a := Used(counters, 0);
            OnError(d.retriers, d.catchers, counters, e) ==
              if a < 5 then RetryAfter(3 * Pow(2, a), counters[0 := a + 1])
              else CaughtBy(Fallback(CompensationPath(CompensationErrorKey), CompensationFailed))
  {
    CatchAllTakesEverything(Undo(c), counters, e);
    assert Covers(Definition(Undo(c)).retriers[0].errors, e);
  }

  /** MarkFailed is retried four times on any error, after 2, 4, 8 and 16 seconds; nothing catches it. */
  lemma MarkFailedErrors(counters: Counters, e: ErrorName)
    ensures var d := Definition(MarkFailed);
            var a := Used(counters, 0);
            OnError(d.retriers, d.catchers, counters, e) ==
              if a < 4 then RetryAfter(2 * Pow(2, a), counters[0 := a + 1]) else Uncaught
  {
    assert Covers(Definition(MarkFailed).retriers[0].errors, e);
  }

  /** CompleteSaga is retried three times on any error, after 2, 4 and 8 seconds; nothing catches it. */
  lemma CompletionErrors(counters: Counters, e: ErrorName)
    ensures var d := Definition(CompleteSaga);
            var a := Used(counters, 0);
            OnError(d.retriers, d.catchers, counters, e) ==
              if a < 3 then RetryAfter(2 * Pow(2, a), counters[0 := a + 1]) else Uncaught
  {
    assert Covers(Definition(CompleteSaga).retriers[0].errors, e);
  }

  /** A failed attempt of a forward step, on the execution as a whole: it is retried exactly as
      ForwardErrors says, and otherwise the error is in `$.error` and the rollback begins; results
      and compensation blocks of the document stay. */
  lemma ForwardFailure(x: Execution, f: Forward, e: ErrorName, fault: Fault, suffix: string)
    requires x.at == At(Run(f)) && Invoke(Forwards(f), x.doc, x.item, fault, suffix).1 == Raised(e)
    ensures var y := Step(x, Attempt(fault, suffix));
            var (a, b) := (Used(x.counters, 0), Used(x.counters, 1));
            && y.doc.results == x.doc.results && y.doc.compensation == x.doc.compensation
            && (if (e.SagaTransientError? && a < 3) || (ServiceError(e) && b < 4) then
                  && y.at == x.at && y.doc == x.doc
                  && y.log.waited == x.log.waited + (if e.SagaTransientError? then 2 * Pow(2, a) else Pow(2, b))
                  && Used(y.counters, 0) == a + (if e.SagaTransientError? then 1 else 0)
                  && Used(y.counters, 1) == b + (if e.SagaTransientError? then 0 else 1)
                else
                  && y.at == At(OnForwardFailure(f)) && y.doc.error == Some(ErrorInfo(e)) && y.counters == map[]
                  && y.log.waited == x.log.waited)
  {
    ForwardErrors(f, x.counters, e);
  }

  /** A failed compensation attempt: retried up to five times, then the error is under
      `$.compensation.error` and the execution ends in CompensationFailed. */
  lemma CompensationFailure(x: Execution, c: Compensation, e: ErrorName, fault: Fault, suffix: string)
    requires x.at == At(Undo(c)) && Invoke(Undoes(c), x.doc, x.item, fault, suffix).1 == Raised(e)
    ensures var y := Step(x, Attempt(fault, suffix));
            var a := Used(x.counters, 0);
            && y.doc.results == x.doc.results && y.doc.error == x.doc.error
            && (if a < 5 then
                  y.at == x.at && y.doc == x.doc && y.log.waited == x.log.waited + 3 * Pow(2, a) &&
                  Used(y.counters, 0) == a + 1
                else
                  && y.at == At(CompensationFailed)
                  && y.doc.compensation == x.doc.compensation[CompensationErrorKey := ErrorInfo(e)])
  {
    CompensationErrors(c, x.counters, e);
  }

  // ------------------------------------------------ results

  /** What a forward step that succeeds returns, and what the item then holds for it. */
  lemma ForwardResult(f: Forward, doc: Doc, item: Option<Record>, suffix: string)
    requires f.CreateOrder? || HasMaps(item)
    ensures var (after, reply) := Invoke(Forwards(f), doc, item, NoFault, suffix);
            reply.Returned? ==>
              && doc.order.Some?
              && var o := doc.order.value;
                 match f
                 case CreateOrder =>
                   && reply.output == OrderPlaced(o.orderId, |o.items|)
                   && EntryOf(after, Fwd(f)) == Some(Entry(DONE, OrderDetail(o.orderId, |o.items|)))
                 case ChargePayment =>
                   && reply.output == PaymentCharged("pay-" + suffix, o.amount)
                   && EntryOf(after, Fwd(f)) == Some(Entry(DONE, IdDetail("pay-" + suffix)))
                 case ReserveInventory =>
                   && reply.output == InventoryReserved("rsv-" + suffix, o.items)
                   && EntryOf(after, Fwd(f)) == Some(Entry(DONE, IdDetail("rsv-" + suffix)))
                 case ScheduleShipment =>
                   && reply.output == ShipmentScheduled("shp-" + suffix)
                   && EntryOf(after, Fwd(f)) == Some(Entry(DONE, IdDetail("shp-" + suffix)))
  {
    if f.CreateOrder? {
      CreateEffect(doc, item, NoFault, suffix);
    } else {
      ForwardEffect(f, doc, item, NoFault, suffix);
    }
    IdParts(suffix);
  }

  lemma IdParts(suffix: string)
    ensures NewId("pay", suffix) == "pay-" + suffix
    ensures NewId("rsv", suffix) == "rsv-" + suffix
    ensures NewId("shp", suffix) == "shp-" + suffix
  {
    assert "pay" + "-" == "pay-" && "rsv" + "-" == "rsv-" && "shp" + "-" == "shp-";
  }

  /** A forward step that succeeds puts its output under its own result key, replaces nothing else in
      the document, and goes on along the chain with fresh retry counters. */
  lemma ForwardSuccess(x: Execution, f: Forward, output: Output, fault: Fault, suffix: string)
    requires x.at == At(Run(f)) && Invoke(Forwards(f), x.doc, x.item, fault, suffix).1 == Returned(output)
    ensures var y := Step(x, Attempt(fault, suffix));
            && y.doc == x.doc.(results := x.doc.results[ResultOf(f) := output]) && y.counters == map[]
            && y.at == At(match f
                          case CreateOrder => Run(ChargePayment)
                          case ChargePayment => Run(ReserveInventory)
                          case ReserveInventory => Run(ScheduleShipment)
                          case ScheduleShipment => CompleteSaga)
  {
  }

  /** In every run, a compensation that returns names the resource that its forward step returned, both
      in its reply and under its own key of `$.compensation`; everything else in the document stays. */
  lemma CompensationResult(doc: Doc, item: Option<Record>, events: seq<Event>, c: Compensation, fault: Fault,
                           suffix: string)
    ensures var x := RunAll(Begin(doc, item), events);
            var y := Step(x, Attempt(fault, suffix));
            x.at == At(Undo(c)) && y.at != x.at && y.at != At(CompensationFailed) ==>
              && UndoneBy(c) in y.doc.compensation
              && y.doc == x.doc.(compensation := x.doc.compensation[UndoneBy(c) := y.doc.compensation[UndoneBy(c)]])
              && match c
                 case ReleaseInventory =>
                   && ReserveInventory in x.log.returned && x.log.returned[ReserveInventory].InventoryReserved?
                   && y.doc.compensation[UndoneBy(c)] == Released(x.log.returned[ReserveInventory].reservationId)
                   && y.at == At(Undo(RefundPayment))
                 case RefundPayment =>
                   && ChargePayment in x.log.returned && x.log.returned[ChargePayment].PaymentCharged?
                   && y.doc.compensation[UndoneBy(c)] == Refunded(x.log.returned[ChargePayment].paymentId)
                   && y.at == At(Undo(CancelOrder))
                 case CancelOrder =>
                   && x.doc.order.Some?
                   && y.doc.compensation[UndoneBy(c)] == Cancelled(x.doc.order.value.orderId)
                   && y.at == At(MarkFailed)
  {
    ReachableAgrees(doc, item, events);
    var x := RunAll(Begin(doc, item), events);
    if x.at == At(Undo(c)) {
      UndoneSucceeded(x, c);
      UndoEffect(c, x.doc, x.item, fault, suffix);
      assert Settled(x, Undone(c));
      var reply := Invoke(Undoes(c), x.doc, x.item, fault, suffix).1;
      if reply.Raised? { CompensationFailure(x, c, reply.error, fault, suffix); }
    }
  }

  /** The two bookkeeping states set their status, put it under their own result key, and keep the rest. */
  lemma MarkResult(x: Execution, s: StateName, suffix: string)
    requires x.at == At(s) && (s.CompleteSaga? || s.MarkFailed?) && x.doc.order.Some? && x.item.Some?
    ensures var y := Step(x, Attempt(NoFault, suffix));
            && y.item == Some(x.item.value.(status := Some(if s.CompleteSaga? then COMPLETED else FAILED)))
            && (if s.CompleteSaga? then
                  && y.at == Succeeded
                  && y.doc == x.doc.(results := x.doc.results[Completion := StatusIs(COMPLETED)])
                else
                  && y.at == At(SagaFailed)
                  && y.doc == x.doc.(results := x.doc.results[FailureMark := StatusIs(FAILED)]))
  {
  }

  /** The first state empties `$.results` and keeps the rest. */
  lemma Initialises(x: Execution, fault: Fault, suffix: string)
    requires x.at == At(InitializeSaga)
    ensures var y := Step(x, Attempt(fault, suffix));
            y.at == At(Run(CreateOrder)) && y.doc == x.doc.(results := map[]) && y.item == x.item && y.counters == map[]
  {
  }

  /** How far a compensation gets under a fault: nothing, the status alone, or both writes; the reply is
      lost in each case. */
  lemma CompensationInterrupted(c: Compensation, doc: Doc, item: Option<Record>, n: nat, e: ErrorName, suffix: string)
    requires doc.order.Some? && HasMaps(item)
    ensures var (after, reply) := Invoke(Undoes(c), doc, item, Fault(n, e), suffix);
            var done := Invoke(Undoes(c), doc, item, NoFault, suffix).0;
            && reply == Raised(e)
            && after == (if n == 0 then item
                         else if n == 1 then Some(item.value.(status := Some(COMPENSATING))) else done)
  {
    var s := Open(item, Fault(n, e));
    var s1 := Do(s, SetStatus(COMPENSATING));
    var t1 := Do(Open(item, NoFault), SetStatus(COMPENSATING));
    assert n > 0 ==> s1.item == t1.item && HasMaps(t1.item);
  }

  /** How far create_order gets under a fault when nothing else disturbs it: `start` comes first, the DONE
      entry last. */
  lemma CreationInterrupted(doc: Doc, item: Option<Record>, n: nat, e: ErrorName, suffix: string)
    requires !NotAnOrder(doc) && doc.failAt != Some(Fwd(CreateOrder)) && Fwd(CreateOrder) !in doc.flaky
    ensures var (after, reply) := Invoke(Forwards(CreateOrder), doc, item, Fault(n, e), suffix);
            var done := Invoke(Forwards(CreateOrder), doc, item, NoFault, suffix).0;
            && reply == Raised(e)
            && (n == 0 ==> after == item)
            && (n == 1 ==> StatusOf(after) == Some(STARTED) && EntryOf(after, Fwd(CreateOrder)) == None)
            && (n >= 2 ==> after == done)
  {
  }

  /** Called by hand without a result to undo, refund and release change the status and record SKIPPED. */
  lemma NothingToUndoIsSkipped(c: Compensation, doc: Doc, item: Option<Record>, suffix: string)
    requires c != CancelOrder && doc.order.Some? && HasMaps(item)
    requires ResultOf(Undone(c)) !in doc.results
    ensures var (after, reply) := Invoke(Undoes(c), doc, item, NoFault, suffix);
            && reply == Returned(Skipped) && StatusOf(after) == Some(COMPENSATING)
            && EntryOf(after, Comp(c)) == Some(Entry(SKIPPED, NoDetail))
            && forall p :: p != Comp(c) ==> EntryOf(after, p) == EntryOf(item, p)
  {
    UndoEffect(c, doc, item, NoFault, suffix);
    var s1 := Do(Open(item, NoFault), SetStatus(COMPENSATING));
    assert s1.Open? && HasMaps(s1.item);
  }

  // ------------------------------------------------ create_order validates first

  /** The order block is missing, its amount is not positive, or it has no line items. */
  predicate NotAnOrder(doc: Doc) {
    doc.order.None? || doc.order.value.amount <= 0.0 || |doc.order.value.items| == 0
  }

  /** create_order on such an input raises under any fault, before any write; without a fault it raises
      SagaBusinessError. */
  lemma InvalidOrderIsRefused(doc: Doc, item: Option<Record>, fault: Fault, suffix: string)
    requires NotAnOrder(doc)
    ensures var (after, reply) := Invoke(Forwards(CreateOrder), doc, item, fault, suffix);
            && after == item && reply == Raised(if fault.Fault? then fault.error else SagaBusinessError)
            && Call(Forwards(CreateOrder), doc, Open(item, fault), suffix).1 == Raised(SagaBusinessError)
  {
  }

  /** And a valid order that nothing is set to disturb is created. */
  lemma ValidOrderIsCreated(doc: Doc, item: Option<Record>, suffix: string)
    requires !NotAnOrder(doc) && doc.failAt != Some(Fwd(CreateOrder))
    requires Fwd(CreateOrder) in doc.flaky ==> doc.flaky[Fwd(CreateOrder)] <= 1
    ensures var (after, reply) := Invoke(Forwards(CreateOrder), doc, item, NoFault, suffix);
            var o := doc.order.value;
            && reply == Returned(OrderPlaced(o.orderId, |o.items|))
            && StatusOf(after) == Some(STARTED) && after.Some?
            && after.value.info == Some(OrderInfo(o.customer, o.amount, o.currency, Some(7776000)))
            && EntryOf(after, Fwd(CreateOrder)) == Some(Entry(DONE, OrderDetail(o.orderId, |o.items|)))
  {
    var o := doc.order.value;
    var s1 := Do(Open(item, NoFault), Start(InfoOf(o)));
    assert s1 == Open(Some(Record(Some(STARTED), Some(map[]), Some(map[]), Some(InfoOf(o)))), NoFault);
    var s2 := InjectTransient(CreateOrder, doc, s1);
    assert s2.Open? && s2.item.Some? && s2.item.value.steps == Some(map[]) && s2.item.value.info == Some(InfoOf(o));
    assert AttemptCount(s2.item, Fwd(CreateOrder)) >= 1 || SucceedOn(doc, Fwd(CreateOrder)) == 0;
  }

  /** The item without its status. */
  function Substance(item: Option<Record>): Record {
    if item.Some? then item.value.(status := None) else EMPTY
  }

  ghost predicate Barred(x: Execution, doc: Doc, item: Option<Record>) {
    && x.doc.order == doc.order && x.log.succeeded == [] && x.log.compensated == []
    && Substance(x.item) == Substance(item)
    && (x.at.At? ==>
          || x.at.state.InitializeSaga? || x.at.state == Run(CreateOrder) || x.at.state.MarkFailed?
          || x.at.state.SagaFailed?)
    && x.at != Succeeded
  }

  lemma BarredCreate(x: Execution, doc: Doc, item: Option<Record>, fault: Fault, suffix: string)
    requires NotAnOrder(doc) && Barred(x, doc, item) && x.at == At(Run(CreateOrder))
    ensures Barred(Step(x, Attempt(fault, suffix)), doc, item)
  {
    InvalidOrderIsRefused(x.doc, x.item, fault, suffix);
    var e := Invoke(Forwards(CreateOrder), x.doc, x.item, fault, suffix).1.error;
    ForwardErrors(CreateOrder, x.counters, e);
  }

  lemma BarredMark(x: Execution, doc: Doc, item: Option<Record>, fault: Fault, suffix: string)
    requires Barred(x, doc, item) && x.at == At(MarkFailed)
    ensures Barred(Step(x, Attempt(fault, suffix)), doc, item)
  {
    var (after, reply) := Invoke(MarksFailed, x.doc, x.item, fault, suffix);
    assert Substance(after) == Substance(x.item);
    if reply.Raised? { MarkFailedErrors(x.counters, reply.error); }
  }

  lemma {:induction false} RunBarred(x: Execution, doc: Doc, item: Option<Record>, events: seq<Event>)
    requires NotAnOrder(doc) && Barred(x, doc, item)
    ensures Barred(RunAll(x, events), doc, item)
    decreases |events|
  {
    if events != [] {
      var e := events[0];
      if !Halted(x) && e.Attempt? {
        match x.at.state
        case Run(f) => BarredCreate(x, doc, item, e.fault, e.suffix);
        case MarkFailed => BarredMark(x, doc, item, e.fault, e.suffix);
        case _ =>
      }
      RunBarred(Step(x, e), doc, item, events[1..]);
    }
  }

  /** No run from an input that is not an order completes a step, compensates anything, or writes more
      than the status of the item; and it never reaches a step after create_order. */
  lemma InvalidOrderHasNoEffect(doc: Doc, item: Option<Record>, events: seq<Event>, f: Forward)
    requires NotAnOrder(doc)
    ensures var x := RunAll(Begin(doc, item), events);
            && x.log.succeeded == [] && x.log.compensated == [] && x.at != Succeeded && x.at != At(CompleteSaga)
            && Substance(x.item) == Substance(item)
            && (f != CreateOrder ==> x.at != At(Run(f)))
            && (Seeded(x) ==> ResultOf(f) !in x.doc.results)
  {
    assert Barred(Begin(doc, item), doc, item);
    RunBarred(Begin(doc, item), doc, item, events);
    DocumentAgreesWithStore(doc, item, events, f);
  }

  /** Every other handler refuses an event without a usable order block, too. */
  lemma NoOrderBlock(h: Handler, doc: Doc, item: Option<Record>, fault: Fault, suffix: string)
    requires doc.order.None?
    ensures Invoke(h, doc, item, fault, suffix) ==
              (item, Raised(if fault.Fault? then fault.error else SagaBusinessError))
  {
  }

  // ------------------------------------------------ what the item keeps of the order

  /** The item keeps what `start` stored about the order. */
  ghost predicate Informed(x: Execution) {
    x.log.succeeded != [] ==>
      && x.doc.order.Some? && x.item.Some?
      && var o := x.doc.order.value;
         x.item.value.info == Some(OrderInfo(o.customer, o.amount, o.currency, Some(7776000)))
  }

  lemma InvocationKeepsInfo(h: Handler, doc: Doc, item: Option<Record>, fault: Fault, suffix: string)
    requires item.Some? && h != Forwards(CreateOrder)
    ensures var after := Invoke(h, doc, item, fault, suffix).0;
            after.Some? && after.value.info == item.value.info
  {
  }

  lemma CreationInforms(doc: Doc, item: Option<Record>, fault: Fault, suffix: string)
    ensures var (after, reply) := Invoke(Forwards(CreateOrder), doc, item, fault, suffix);
            reply.Returned? ==>
              && doc.order.Some? && after.Some?
              && var o := doc.order.value;
                 after.value.info == Some(OrderInfo(o.customer, o.amount, o.currency, Some(7776000)))
  {
  }

  lemma OutcomeKeepsInput(y: Execution, s: StateName, reply: Reply)
    requires y.at == At(s) && Definition(s).TaskState?
    ensures var z := if reply.Returned? then OnReturn(y, s, reply.output) else OnRaise(y, s, reply.error);
            && z.doc.order == y.doc.order && z.item == y.item
            && (reply.Raised? || !s.Run? ==> z.log.succeeded == y.log.succeeded)
  {
    if reply.Raised? { RaiseLeavesResults(y, s, reply.error); }
  }

  lemma StepInformed(x: Execution, e: Event)
    requires Ordered(x) && Agreed(x) && Informed(x)
    ensures Informed(Step(x, e))
  {
    if !Halted(x) && e.Attempt? && Definition(x.at.state).TaskState? {
      var s := x.at.state;
      var (after, reply) := Invoke(Definition(s).handler, x.doc, x.item, e.fault, e.suffix);
      OutcomeKeepsInput(Attempted(x, s, after), s, reply);
      if s == Run(CreateOrder) {
        NotYetDone(x, CreateOrder);
        CreationInforms(x.doc, x.item, e.fault, e.suffix);
      } else if x.log.succeeded != [] {
        InvocationKeepsInfo(Definition(s).handler, x.doc, x.item, e.fault, e.suffix);
      }
    }
  }

  lemma {:induction false} RunInformed(x: Execution, events: seq<Event>)
    requires Ordered(x) && Agreed(x) && Informed(x)
    ensures Informed(RunAll(x, events))
    decreases |events|
  {
    if events != [] {
      StepInformed(x, events[0]);
      StepKeepsOrder(x, events[0]);
      StepKeepsAgreement(x, events[0]);
      RunInformed(Step(x, events[0]), events[1..]);
    }
  }

  /** In every run, from the success of create_order on, the item holds the order's customer, amount and
      currency and a lifetime of 90 days. */
  lemma OrderIsOnRecord(doc: Doc, item: Option<Record>, events: seq<Event>)
    ensures Informed(RunAll(Begin(doc, item), events))
  {
    assert Ordered(Begin(doc, item)) && Agreed(Begin(doc, item));
    RunInformed(Begin(doc, item), events);
  }
}
