/** The nine step handlers of the order saga. `Invoke` specifies one Lambda invocation as a
    function of the execution document, the order's item and the environment; the class below
    contains the handlers themselves and is proved against it. */
module SagaHandlers {
  import opened StatesLanguage
  import opened SagaRecords

  /** The order block, with the documented defaults already read for missing fields. */
  datatype Order = Order(orderId: string, customer: string, amount: real, currency: string, items: seq<string>)

  const DEFAULT_TTL_SECONDS := 90 * 24 * 60 * 60

  /** What a handler returns, or any other JSON found in the execution input. */
  datatype Output =
    | OrderPlaced(orderId: string, lineItems: nat)
    | PaymentCharged(paymentId: string, amount: real)
    | InventoryReserved(reservationId: string, items: seq<string>)
    | ShipmentScheduled(shipmentId: string)
    | Released(reservationId: string)
    | Refunded(paymentId: string)
    | Skipped
    | Cancelled(orderId: string)
    | StatusIs(status: Status)
    | ErrorInfo(error: ErrorName)
    | OtherJson

  datatype ResultKey = ResultOf(f: Forward) | Completion | FailureMark
  datatype CompensationKey = UndoneBy(c: Compensation) | CompensationErrorKey

  /** The execution document; `order` is None when the input has no usable order block. */
  datatype Doc = Doc(order: Option<Order>,
                     failAt: Option<StepName>,
                     flaky: map<StepName, int>,
                     results: map<ResultKey, Output>,
                     error: Option<Output>,
                     compensation: map<CompensationKey, Output>)

  datatype Reply = Returned(output: Output) | Raised(error: ErrorName)

  datatype Handler = Forwards(f: Forward) | Completes | Undoes(c: Compensation) | MarksFailed

  /** `_new_id`: a prefix, a dash and a fresh suffix, hence never empty. */
  function NewId(prefix: string, suffix: string): (id: string)
    ensures id != ""
  {
    prefix + "-" + suffix
  }

  function SucceedOn(doc: Doc, step: StepName): int {
    if step in doc.flaky then doc.flaky[step] else 0
  }

  function OutputFor(f: Forward, order: Order, suffix: string): Output {
    match f
    case CreateOrder => OrderPlaced(order.orderId, |order.items|)
    case ChargePayment => PaymentCharged(NewId("pay", suffix), order.amount)
    case ReserveInventory => InventoryReserved(NewId("rsv", suffix), order.items)
    case ScheduleShipment => ShipmentScheduled(NewId("shp", suffix))
  }

  /** The detail the store keeps for a forward result: the same identifier. */
  function DetailFor(output: Output): Detail {
    match output
    case OrderPlaced(orderId, n) => OrderDetail(orderId, n)
    case PaymentCharged(id, _) => IdDetail(id)
    case InventoryReserved(id, _) => IdDetail(id)
    case ShipmentScheduled(id) => IdDetail(id)
    case _ => NoDetail
  }

  function InfoOf(order: Order): OrderInfo {
    OrderInfo(order.customer, order.amount, order.currency, Some(DEFAULT_TTL_SECONDS))
  }

  predicate Sellable(order: Order) {
    order.amount > 0.0 && order.items != []
  }

  // ------------------------------------------------------ specification of one invocation

  /** A store call followed by the rest of the handler; an exception skips the rest. */
  function Reported(s: Session, reply: Reply): (Session, Reply) {
    if s.Broken? then (s, Raised(s.error)) else (s, reply)
  }

  function InjectTransient(f: Forward, doc: Doc, s: Session): Session {
    if SucceedOn(doc, Fwd(f)) == 0 then s else Do(s, IncrementAttempt(Fwd(f)))
  }

  predicate TransientDue(f: Forward, doc: Doc, item: Option<Record>) {
    SucceedOn(doc, Fwd(f)) != 0 && AttemptCount(item, Fwd(f)) < SucceedOn(doc, Fwd(f))
  }

  /** The part of a forward handler after validation and, for create_order, `start`. */
  function AfterStart(f: Forward, doc: Doc, order: Order, s: Session, suffix: string): (Session, Reply) {
    var s1 := InjectTransient(f, doc, s);
    if s1.Broken? then (s1, Raised(s1.error))
    else if TransientDue(f, doc, s1.item) then (s1, Raised(SagaTransientError))
    else if doc.failAt == Some(Fwd(f)) then (s1, Raised(SagaBusinessError))
    else
      var output := OutputFor(f, order, suffix);
      Reported(Do(s1, RecordStep(Fwd(f), Entry(DONE, DetailFor(output)))), Returned(output))
  }

  function ForwardCall(f: Forward, doc: Doc, order: Order, s: Session, suffix: string): (Session, Reply) {
    if f.CreateOrder? && !Sellable(order) then (s, Raised(SagaBusinessError))
    else
      var s1 := if f.CreateOrder? then Do(s, Start(InfoOf(order))) else s;
      if s1.Broken? then (s1, Raised(s1.error)) else AfterStart(f, doc, order, s1, suffix)
  }

  /** `_completed_detail` plus the id lookup: "" when there is nothing to undo. */
  function TargetId(c: Compensation, doc: Doc): string {
    match c
    case ReleaseInventory =>
      if ResultOf(ReserveInventory) in doc.results && doc.results[ResultOf(ReserveInventory)].InventoryReserved?
      then doc.results[ResultOf(ReserveInventory)].reservationId else ""
    case RefundPayment =>
      if ResultOf(ChargePayment) in doc.results && doc.results[ResultOf(ChargePayment)].PaymentCharged?
      then doc.results[ResultOf(ChargePayment)].paymentId else ""
    case CancelOrder => ""
  }

  function CompensationEntry(c: Compensation, doc: Doc): Entry {
    if c.CancelOrder? then Entry(DONE, NoDetail)
    else if TargetId(c, doc) == "" then Entry(SKIPPED, NoDetail)
    else Entry(DONE, IdDetail(TargetId(c, doc)))
  }

  function CompensationOutput(c: Compensation, doc: Doc, order: Order): Output {
    if c.CancelOrder? then Cancelled(order.orderId)
    else if TargetId(c, doc) == "" then Skipped
    else if c.ReleaseInventory? then Released(TargetId(c, doc)) else Refunded(TargetId(c, doc))
  }

  function UndoCall(c: Compensation, doc: Doc, order: Order, s: Session): (Session, Reply) {
    var s1 := Do(s, SetStatus(COMPENSATING));
    if s1.Broken? then (s1, Raised(s1.error))
    else Reported(Do(s1, RecordStep(Comp(c), CompensationEntry(c, doc))), Returned(CompensationOutput(c, doc, order)))
  }

  function Call(h: Handler, doc: Doc, s: Session, suffix: string): (Session, Reply) {
    if doc.order.None? then (s, Raised(SagaBusinessError))
    else
      match h
      case Forwards(f) => ForwardCall(f, doc, doc.order.value, s, suffix)
      case Undoes(c) => UndoCall(c, doc, doc.order.value, s)
      case Completes => Reported(Do(s, SetStatus(COMPLETED)), Returned(StatusIs(COMPLETED)))
      case MarksFailed => Reported(Do(s, SetStatus(FAILED)), Returned(StatusIs(FAILED)))
  }

  /** A fault that outlives the handler's store calls takes away its reply. */
  function Delivered(r: (Session, Reply)): (Option<Record>, Reply) {
    (r.0.item, if r.0.fault.Fault? then Raised(r.0.fault.error) else r.1)
  }

  function Invoke(h: Handler, doc: Doc, item: Option<Record>, fault: Fault, suffix: string)
    : (Option<Record>, Reply)
  {
    Delivered(Call(h, doc, Open(item, fault), suffix))
  }

  // ------------------------------------------------------------------ the handlers

  class Handlers {
    const store: SagaStore

    constructor (store: SagaStore)
      ensures this.store == store
    {
      this.store := store;
    }

    /** The table and the reply are what the specification of the handler says. */
    ghost predicate Final(orderId: string, reply: Reply, r: (Session, Reply))
      reads this, store
    {
      Lookup(store.items, orderId) == r.0.item && store.fault == r.0.fault && reply == r.1
    }

    method MaybeInjectTransient(orderId: string, f: Forward, doc: Doc)
      returns (raised: Option<ErrorName>)
      modifies store
      ensures store.items - {orderId} == old(store.items) - {orderId}
      ensures var s := InjectTransient(f, doc, old(store.SessionOf(orderId)));
              Lookup(store.items, orderId) == s.item && store.fault == s.fault &&
              raised == if s.Broken? then Some(s.error)
                        else if TransientDue(f, doc, s.item) then Some(SagaTransientError) else None
    {
      var n := SucceedOn(doc, Fwd(f));
      if n == 0 { return None; }
      var count;
      raised, count := store.Increment(orderId, Fwd(f));
      if raised.None? && count < n {
        raised := Some(SagaTransientError);
      }
    }

    /** create_order, charge_payment, reserve_inventory and schedule_shipment. */
    method RunForward(f: Forward, doc: Doc, suffix: string) returns (reply: Reply)
      requires doc.order.Some?
      modifies store
      ensures var id := doc.order.value.orderId;
              var r := ForwardCall(f, doc, doc.order.value, old(store.SessionOf(id)), suffix);
              Final(id, reply, r) && store.items - {id} == old(store.items) - {id}
    {
      var order := doc.order.value;
      var raised;
      if f.CreateOrder? {
        if order.amount <= 0.0 { return Raised(SagaBusinessError); }
        if order.items == [] { return Raised(SagaBusinessError); }
        raised := store.StartSaga(order.orderId, order.customer, order.amount, order.currency,
                                  Some(DEFAULT_TTL_SECONDS));
        if raised.Some? { return Raised(raised.value); }
      }
      raised := MaybeInjectTransient(order.orderId, f, doc);
      if raised.Some? { return Raised(raised.value); }
      if doc.failAt == Some(Fwd(f)) { return Raised(SagaBusinessError); }
      var output := OutputFor(f, order, suffix);
      raised := store.Record(order.orderId, Fwd(f), DONE, DetailFor(output));
      if raised.Some? { return Raised(raised.value); }
      return Returned(output);
    }

    /** release_inventory, refund_payment and cancel_order. */
    method RunCompensation(c: Compensation, doc: Doc) returns (reply: Reply)
      requires doc.order.Some?
      modifies store
      ensures var id := doc.order.value.orderId;
              var r := UndoCall(c, doc, doc.order.value, old(store.SessionOf(id)));
              Final(id, reply, r) && store.items - {id} == old(store.items) - {id}
    {
      var order := doc.order.value;
      var raised := store.Status(order.orderId, COMPENSATING);
      if raised.Some? { return Raised(raised.value); }
      var entry := Entry(DONE, NoDetail);
      var output := Cancelled(order.orderId);
      if !c.CancelOrder? {
        var target := TargetId(c, doc);
        if target == "" {
          entry, output := Entry(SKIPPED, NoDetail), Skipped;
        } else {
          entry := Entry(DONE, IdDetail(target));
          output := if c.ReleaseInventory? then Released(target) else Refunded(target);
        }
      }
      raised := store.Record(order.orderId, Comp(c), entry.mark, entry.detail);
      if raised.Some? { return Raised(raised.value); }
      return Returned(output);
    }

    /** complete_saga and mark_failed. */
    method RunMark(status: Status, doc: Doc) returns (reply: Reply)
      requires doc.order.Some?
      modifies store
      ensures var id := doc.order.value.orderId;
              var r := Reported(Do(old(store.SessionOf(id)), SetStatus(status)), Returned(StatusIs(status)));
              Final(id, reply, r) && store.items - {id} == old(store.items) - {id}
    {
      var raised := store.Status(doc.order.value.orderId, status);
      if raised.Some? { return Raised(raised.value); }
      return Returned(StatusIs(status));
    }

    /** One Lambda invocation as Step Functions sees it. */
    method InvokeHandler(h: Handler, doc: Doc, fault: Fault, suffix: string) returns (reply: Reply)
      modifies store
      ensures doc.order.Some? ==>
                var id := doc.order.value.orderId;
                (Lookup(store.items, id), reply) == Invoke(h, doc, old(Lookup(store.items, id)), fault, suffix) &&
                store.items - {id} == old(store.items) - {id}
      ensures doc.order.None? ==>
                store.items == old(store.items) &&
                forall item :: Invoke(h, doc, item, fault, suffix) == (item, reply)
    {
      store.fault := fault;
      if doc.order.None? {
        reply := Raised(SagaBusinessError);
      } else {
        match h
        case Forwards(f) => reply := RunForward(f, doc, suffix);
        case Undoes(c) => reply := RunCompensation(c, doc);
        case Completes => reply := RunMark(COMPLETED, doc);
        case MarksFailed => reply := RunMark(FAILED, doc);
      }
      if store.fault.Fault? {
        reply := Raised(store.fault.error);
      }
    }
  }
}
