/** Two runs that end with something left behind: a payment charged twice and refunded once, and a
    completed order whose execution fails without any rollback. */
module SagaLosses {
  import opened StatesLanguage
  import opened SagaRecords
  import opened SagaHandlers
  import opened SagaMachine
  import opened SagaRollback
  import opened SagaAgreement
  import opened SagaLedger
  import opened SagaCleanRuns
  import opened SagaWitnesses

  lemma LedgerCons(x: Execution, e: Event, rest: seq<Event>, f: Forward, l: Ledger)
    ensures LedgerOf(x, [e] + rest, f, l) == LedgerOf(Step(x, e), rest, f, Post(x, e, f, l))
  {
    assert ([e] + rest)[1..] == rest;
  }

  // ------------------------------------------------ charged twice, refunded once

  const CHARGED_TWICE := [Attempt(Fault(1, LambdaServiceException), "a"), Attempt(NoFault, "b")]
  const ROLLED_BACK := [Attempt(Fault(0, StatesTimeout), ""), Attempt(NoFault, ""), Attempt(NoFault, ""),
                        Attempt(NoFault, "")]

  lemma ChargeActs(x: Execution)
    requires Plain(x.doc) && HasMaps(x.item)
    ensures var r := Call(Forwards(ChargePayment), x.doc, Open(x.item, Fault(1, LambdaServiceException)), "a");
            && r.1 == Returned(PaymentCharged("pay-a", x.doc.order.value.amount))
            && HasMaps(r.0.item) && r.0.fault == Fault(0, LambdaServiceException)
  {
  }

  lemma ServiceErrorRetried(x: Execution)
    requires x.at == At(Run(ChargePayment)) && x.counters == map[]
    ensures var y := OnRaise(x, Run(ChargePayment), LambdaServiceException);
            y.at == x.at && y.item == x.item && y.doc == x.doc && y.log.compensated == x.log.compensated
  {
    var d := Definition(Run(ChargePayment));
    assert !Covers(d.retriers[0].errors, LambdaServiceException);
    assert Covers(d.retriers[1].errors, LambdaServiceException);
    assert FirstRule(d.retriers, LambdaServiceException) == Some(1);
  }

  /** The charge goes through, its reply is lost, and the error is one that is retried. */
  lemma ChargeRetried(x: Execution, l: Ledger)
    requires Plain(x.doc) && x.at == At(Run(ChargePayment)) && HasMaps(x.item) && x.counters == map[]
    ensures var e := Attempt(Fault(1, LambdaServiceException), "a");
            var y := Step(x, e);
            && y.at == x.at && HasMaps(y.item) && y.doc == x.doc && y.log.compensated == x.log.compensated
            && Post(x, e, ChargePayment, l) == l.(made := l.made + [IdDetail("pay-a")], lost := l.lost + 1)
  {
    ChargeActs(x);
    var (after, reply) := Invoke(Forwards(ChargePayment), x.doc, x.item, Fault(1, LambdaServiceException), "a");
    ServiceErrorRetried(Attempted(x, Run(ChargePayment), after));
  }

  /** The retry charges again; only this charge is in the document. */
  lemma ChargedAgain(x: Execution, l: Ledger)
    requires Plain(x.doc) && x.at == At(Run(ChargePayment)) && HasMaps(x.item)
    ensures var e := Attempt(NoFault, "b");
            var y := Step(x, e);
            && y.at == At(Run(ReserveInventory)) && HasMaps(y.item) && Plain(y.doc) && y.counters == map[]
            && y.log.compensated == x.log.compensated
            && ResultOf(ChargePayment) in y.doc.results
            && y.doc.results[ResultOf(ChargePayment)] == PaymentCharged("pay-b", y.doc.order.value.amount)
            && EntryOf(y.item, Fwd(ChargePayment)) == Some(Entry(DONE, IdDetail("pay-b")))
            && Post(x, e, ChargePayment, l) == l.(made := l.made + [IdDetail("pay-b")])
  {
    CleanAttempt(ChargePayment, x.doc, x.item, "b");
    ForwardEffect(ChargePayment, x.doc, x.item, NoFault, "b");
    ActsOrLoses(x, ChargePayment, Attempt(NoFault, "b"));
  }

  /** ReserveInventory fails before it does anything. */
  lemma ReserveFails(x: Execution)
    requires Plain(x.doc) && x.at == At(Run(ReserveInventory)) && HasMaps(x.item)
    ensures var y := Step(x, Attempt(Fault(0, StatesTimeout), ""));
            && y.at == At(Undo(RefundPayment)) && y.item == x.item && Plain(y.doc) && y.doc.results == x.doc.results
            && y.doc.order == x.doc.order
            && y.log.compensated == x.log.compensated
  {
    var d := Definition(Run(ReserveInventory));
    StallOnly(x, StatesTimeout);
    CatchAllTakesEverything(Run(ReserveInventory), x.counters, StatesTimeout);
    assert !Covers(d.retriers[0].errors, StatesTimeout) && !Covers(d.retriers[1].errors, StatesTimeout);
  }

  /** RefundPayment gives back the payment that the document names. */
  lemma RefundPosts(x: Execution, l: Ledger)
    requires Plain(x.doc) && x.at == At(Undo(RefundPayment)) && HasMaps(x.item)
    requires ResultOf(ChargePayment) in x.doc.results
    requires x.doc.results[ResultOf(ChargePayment)] == PaymentCharged("pay-b", x.doc.order.value.amount)
    ensures Post(x, Attempt(NoFault, ""), ChargePayment, l) == l.(given := l.given + [IdDetail("pay-b")])
  {
    CleanUndoReturns(RefundPayment, x.doc, x.item, "");
  }

  lemma RollsBackOneCharge(x: Execution)
    requires Plain(x.doc) && x.at == At(Run(ReserveInventory)) && HasMaps(x.item) && x.log.compensated == []
    requires ResultOf(ChargePayment) in x.doc.results
    requires x.doc.results[ResultOf(ChargePayment)] == PaymentCharged("pay-b", x.doc.order.value.amount)
    requires EntryOf(x.item, Fwd(ChargePayment)) == Some(Entry(DONE, IdDetail("pay-b")))
    ensures var y := RunAll(x, ROLLED_BACK);
            && y.at == At(SagaFailed) && y.log.compensated == [RefundPayment, CancelOrder]
            && EntryOf(y.item, Fwd(ChargePayment)) == EntryOf(x.item, Fwd(ChargePayment))
            && ResultOf(ChargePayment) in y.doc.results
  {
    var e := ROLLED_BACK;
    var x1 := Step(x, e[0]);
    var x2 := Step(x1, e[1]);
    var x3 := Step(x2, e[2]);
    ReserveFails(x);
    PlainUndo(x1, RefundPayment);
    PlainUndo(x2, CancelOrder);
    PlainMarkFailed(x3);
    RunFour(x, e[0], e[1], e[2], e[3]);
  }

  lemma OneRefundPosted(x: Execution, l: Ledger)
    requires Plain(x.doc) && x.at == At(Run(ReserveInventory)) && HasMaps(x.item)
    requires ResultOf(ChargePayment) in x.doc.results
    requires x.doc.results[ResultOf(ChargePayment)] == PaymentCharged("pay-b", x.doc.order.value.amount)
    ensures LedgerOf(x, ROLLED_BACK, ChargePayment, l) == l.(given := l.given + [IdDetail("pay-b")])
  {
    var e := ROLLED_BACK;
    var x1 := Step(x, e[0]);
    var x2 := Step(x1, e[1]);
    ReserveFails(x);
    StallOnly(x, StatesTimeout);
    RefundPosts(x1, l);
    PlainUndo(x1, RefundPayment);
    PlainUndo(x2, CancelOrder);
    LedgerFour(x, e[0], e[1], e[2], e[3], ChargePayment, l);
  }

  lemma RunFour(x: Execution, a: Event, b: Event, c: Event, d: Event)
    ensures RunAll(x, [a, b, c, d]) == Step(Step(Step(Step(x, a), b), c), d)
  {
    RunCons(x, a, [b, c, d]);
    RunCons(Step(x, a), b, [c, d]);
    RunCons(Step(Step(x, a), b), c, [d]);
    RunCons(Step(Step(Step(x, a), b), c), d, []);
    assert [a] + [b, c, d] == [a, b, c, d] && [b] + [c, d] == [b, c, d] && [c] + [d] == [c, d] && [d] + [] == [d];
  }

  lemma LedgerFour(x: Execution, a: Event, b: Event, c: Event, d: Event, f: Forward, l: Ledger)
    ensures var x1 := Step(x, a);
            var x2 := Step(x1, b);
            LedgerOf(x, [a, b, c, d], f, l) ==
              Post(Step(x2, c), d, f, Post(x2, c, f, Post(x1, b, f, Post(x, a, f, l))))
  {
    var x1 := Step(x, a);
    var x2 := Step(x1, b);
    var l1 := Post(x, a, f, l);
    var l2 := Post(x1, b, f, l1);
    var l3 := Post(x2, c, f, l2);
    LedgerCons(x, a, [b, c, d], f, l);
    LedgerCons(x1, b, [c, d], f, l1);
    LedgerCons(x2, c, [d], f, l2);
    LedgerCons(Step(x2, c), d, [], f, l3);
    assert [a] + [b, c, d] == [a, b, c, d] && [b] + [c, d] == [b, c, d] && [c] + [d] == [c, d] && [d] + [] == [d];
  }

  lemma RunTwo(x: Execution, a: Event, b: Event, f: Forward, l: Ledger)
    ensures RunAll(x, [a, b]) == Step(Step(x, a), b)
    ensures LedgerOf(x, [a, b], f, l) == Post(Step(x, a), b, f, Post(x, a, f, l))
  {
    RunCons(x, a, [b]);
    RunCons(Step(x, a), b, []);
    LedgerCons(x, a, [b], f, l);
    LedgerCons(Step(x, a), b, [], f, Post(x, a, f, l));
    assert [a] + [b] == [a, b] && [b] + [] == [b];
  }

  const ORDER_PLACED := [Attempt(NoFault, ""), Attempt(NoFault, "")]

  lemma PlacesOrder(doc: Doc)
    requires Plain(doc)
    ensures var x := RunAll(Begin(doc, None), ORDER_PLACED);
            && x.at == At(Run(ChargePayment)) && x.counters == map[] && HasMaps(x.item) && Plain(x.doc)
            && x.log.compensated == []
            && LedgerOf(Begin(doc, None), ORDER_PLACED, ChargePayment, BLANK) == BLANK
  {
    var b := Begin(doc, None);
    var x1 := Step(b, ORDER_PLACED[0]);
    PlainForward(x1, CreateOrder);
    RunTwo(b, ORDER_PLACED[0], ORDER_PLACED[1], ChargePayment, BLANK);
  }

  lemma ChargesTwice(x: Execution)
    requires Plain(x.doc) && x.at == At(Run(ChargePayment)) && HasMaps(x.item) && x.counters == map[]
    requires x.log.compensated == []
    ensures var y := RunAll(x, CHARGED_TWICE);
            && y.at == At(Run(ReserveInventory)) && HasMaps(y.item) && Plain(y.doc) && y.log.compensated == []
            && ResultOf(ChargePayment) in y.doc.results
            && y.doc.results[ResultOf(ChargePayment)] == PaymentCharged("pay-b", y.doc.order.value.amount)
            && EntryOf(y.item, Fwd(ChargePayment)) == Some(Entry(DONE, IdDetail("pay-b")))
    ensures LedgerOf(x, CHARGED_TWICE, ChargePayment, BLANK) == Ledger([IdDetail("pay-a"), IdDetail("pay-b")], [], 1, 0)
  {
    var l1 := Ledger([IdDetail("pay-a")], [], 1, 0);
    ChargeRetried(x, BLANK);
    ChargedAgain(Step(x, CHARGED_TWICE[0]), l1);
    RunTwo(x, CHARGED_TWICE[0], CHARGED_TWICE[1], ChargePayment, BLANK);
    assert [IdDetail("pay-a")] + [IdDetail("pay-b")] == [IdDetail("pay-a"), IdDetail("pay-b")];
  }

  /** For every plain order: a run that charges two payments, refunds the second and ends rolled
      back, while table and document agree about the step throughout. */
  lemma FirstChargeIsNeverRefunded(doc: Doc)
    requires Plain(doc)
    ensures var e := ORDER_PLACED + (CHARGED_TWICE + ROLLED_BACK);
            var x := RunAll(Begin(doc, None), e);
            && x.at == At(SagaFailed) && x.log.compensated == [RefundPayment, CancelOrder]
            && LedgerOf(Begin(doc, None), e, ChargePayment, BLANK) ==
                 Ledger([IdDetail("pay-a"), IdDetail("pay-b")], [IdDetail("pay-b")], 1, 0)
            && EntryOf(x.item, Fwd(ChargePayment)) == Some(Entry(DONE, IdDetail("pay-b")))
            && ResultOf(ChargePayment) in x.doc.results
  {
    var b := Begin(doc, None);
    PlacesOrder(doc);
    var x := RunAll(b, ORDER_PLACED);
    ChargesTwice(x);
    var l := LedgerOf(x, CHARGED_TWICE, ChargePayment, BLANK);
    RollsBackOneCharge(RunAll(x, CHARGED_TWICE));
    OneRefundPosted(RunAll(x, CHARGED_TWICE), l);
    RunSplits(b, ORDER_PLACED, CHARGED_TWICE + ROLLED_BACK, ChargePayment, BLANK);
    RunSplits(x, CHARGED_TWICE, ROLLED_BACK, ChargePayment, BLANK);
  }

  lemma {:induction false} RunSplits(x: Execution, a: seq<Event>, b: seq<Event>, f: Forward, l: Ledger)
    ensures RunAll(x, a + b) == RunAll(RunAll(x, a), b)
    ensures LedgerOf(x, a + b, f, l) == LedgerOf(RunAll(x, a), b, f, LedgerOf(x, a, f, l))
    decreases |a|
  {
    if a == [] {
      assert a + b == b;
    } else {
      assert (a + b)[1..] == a[1..] + b;
      RunSplits(Step(x, a[0]), a[1..], b, f, Post(x, a[0], f, l));
    }
  }

  // ------------------------------------------------ nothing rolled back

  const FIVE_PLAIN := [Attempt(NoFault, ""), Attempt(NoFault, ""), Attempt(NoFault, ""), Attempt(NoFault, ""),
                       Attempt(NoFault, "")]
  const FOUR_TIMEOUTS := [Early(StatesTimeout), Early(StatesTimeout), Early(StatesTimeout), Early(StatesTimeout)]

  lemma AllFourSucceed(doc: Doc)
    requires Plain(doc)
    ensures var x := RunAll(Begin(doc, None), FIVE_PLAIN);
            x.at == At(CompleteSaga) && x.counters == map[] && Plain(x.doc) && Ordered(x)
  {
    var b := Begin(doc, None);
    var e := Attempt(NoFault, "");
    var x1 := Step(b, e);
    var x2 := Step(x1, e);
    var x3 := Step(x2, e);
    var x4 := Step(x3, e);
    PlainForward(x1, CreateOrder);
    PlainForward(x2, ChargePayment);
    PlainForward(x3, ReserveInventory);
    PlainForward(x4, ScheduleShipment);
    FiveSteps(b, e, e, e, e, e);
    assert Ordered(b);
    RunKeepsOrder(b, FIVE_PLAIN);
  }

  lemma CompletionTimesOut(x: Execution)
    requires Plain(x.doc) && x.at == At(CompleteSaga)
    ensures var y := Step(x, Early(StatesTimeout));
            && y.log.succeeded == x.log.succeeded && y.log.compensated == x.log.compensated && Plain(y.doc)
            && (if Used(x.counters, 0) < 3 then y.at == x.at && Used(y.counters, 0) == Used(x.counters, 0) + 1
                else y.at == Failed(StatesTimeout))
  {
    var d := Definition(CompleteSaga);
    assert Covers(d.retriers[0].errors, StatesTimeout);
  }

  /** For every plain order: CompleteSaga times out four times, the execution fails, and the charge,
      the reservation and the shipment all stay. */
  lemma FailedCompletionIsNotRolledBack(doc: Doc)
    requires Plain(doc)
    ensures var x := RunAll(Begin(doc, None), FIVE_PLAIN + FOUR_TIMEOUTS);
            x.at == Failed(StatesTimeout) && x.log.succeeded == FORWARD_CHAIN && x.log.compensated == []
  {
    var b := Begin(doc, None);
    AllFourSucceed(doc);
    RunSplits(b, FIVE_PLAIN, FOUR_TIMEOUTS, CreateOrder, BLANK);
    var e := Early(StatesTimeout);
    var x := RunAll(b, FIVE_PLAIN);
    var x1 := Step(x, e);
    var x2 := Step(x1, e);
    var x3 := Step(x2, e);
    CompletionTimesOut(x);
    CompletionTimesOut(x1);
    CompletionTimesOut(x2);
    CompletionTimesOut(x3);
    RunFour(x, e, e, e, e);
  }

  // ------------------------------------------------ cut by the execution timeout

  const RESERVE_FAILS_THEN_CUT := [Attempt(Fault(0, StatesTimeout), ""), ExecutionTimeout]

  lemma ReachesReserve(doc: Doc)
    requires Plain(doc)
    ensures var x := RunAll(Begin(doc, None), ORDER_PLACED + [Attempt(NoFault, "")]);
            && x.at == At(Run(ReserveInventory)) && HasMaps(x.item) && Plain(x.doc)
            && x.log.compensated == [] && Ordered(x)
  {
    var b := Begin(doc, None);
    var e := Attempt(NoFault, "");
    PlacesOrder(doc);
    var x := RunAll(b, ORDER_PLACED);
    PlainForward(x, ChargePayment);
    RunSplits(b, ORDER_PLACED, [e], CreateOrder, BLANK);
    RunCons(x, e, []);
    assert [e] + [] == [e] && Ordered(b);
    RunKeepsOrder(b, ORDER_PLACED + [e]);
  }

  /** For every plain order: ReserveInventory fails, the execution times out in RefundPayment, and the
      order and the charge stay. */
  lemma CutRollbackLeavesCharge(doc: Doc)
    requires Plain(doc)
    ensures var e := (ORDER_PLACED + [Attempt(NoFault, "")]) + RESERVE_FAILS_THEN_CUT;
            var x := RunAll(Begin(doc, None), e);
            && x.at == TimedOut && CutIn(Begin(doc, None), e) == Some(Undo(RefundPayment))
            && x.log.succeeded == [CreateOrder, ChargePayment] && x.log.compensated == []
  {
    var b := Begin(doc, None);
    var first := ORDER_PLACED + [Attempt(NoFault, "")];
    ReachesReserve(doc);
    var x := RunAll(b, first);
    var cut := RESERVE_FAILS_THEN_CUT;
    ReserveFails(x);
    AttemptLogs(x, Run(ReserveInventory), cut[0]);
    RunSplits(b, first, cut, CreateOrder, BLANK);
    RunTwo(x, cut[0], cut[1], CreateOrder, BLANK);
    CutSplits(b, first, cut);
    assert CutIn(x, cut) == Some(Undo(RefundPayment)) by {
      assert cut[1..] == [ExecutionTimeout] && CutIn(x, cut) == CutIn(Step(x, cut[0]), cut[1..]);
    }
  }

  lemma {:induction false} CutSplits(x: Execution, a: seq<Event>, b: seq<Event>)
    requires forall e :: e in a ==> e.Attempt?
    requires !Halted(RunAll(x, a))
    ensures CutIn(x, a + b) == CutIn(RunAll(x, a), b)
    decreases |a|
  {
    if a == [] {
      assert a + b == b;
    } else {
      if Halted(x) { HaltedStays(x, a); }
      assert a[0] in a && (a + b)[1..] == a[1..] + b;
      CutSplits(Step(x, a[0]), a[1..], b);
    }
  }
}
