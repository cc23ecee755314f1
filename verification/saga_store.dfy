/** The saga-state table: one item per order, written by put, nested SET, plain SET and a
    counter increment. The specification functions describe one item; the class holds the table. */
module SagaRecords {
  import opened StatesLanguage

  datatype Forward = CreateOrder | ChargePayment | ReserveInventory | ScheduleShipment
  datatype Compensation = ReleaseInventory | RefundPayment | CancelOrder
  datatype StepName = Fwd(f: Forward) | Comp(c: Compensation)

  datatype Status = STARTED | COMPLETED | FAILED | COMPENSATING
  datatype Mark = DONE | SKIPPED
  datatype Detail = NoDetail | OrderDetail(orderId: string, lineItems: nat) | IdDetail(id: string)
  datatype Entry = Entry(mark: Mark, detail: Detail)

  /** What `start` stores about the order; `lifetime` is expires_at counted from created_at. */
  datatype OrderInfo = OrderInfo(customer: string, amount: real, currency: string, lifetime: Option<int>)

  /** An item; an attribute that no write has created yet is None. */
  datatype Record = Record(status: Option<Status>,
                           steps: Option<map<StepName, Entry>>,
                           attempts: Option<map<StepName, nat>>,
                           info: Option<OrderInfo>)

  datatype Write =
    | Start(info: OrderInfo)
    | RecordStep(step: StepName, entry: Entry)
    | SetStatus(status: Status)
    | IncrementAttempt(step: StepName)

  const EMPTY := Record(None, None, None, None)

  /** The item after one write, or None when the update expression names a map that does not
      exist (the request is then refused and the item stays as it was). */
  function ApplyWrite(item: Option<Record>, w: Write): Option<Record> {
    var r := if item.Some? then item.value else EMPTY;
    match w
    case Start(info) => Some(Record(Some(STARTED), Some(map[]), Some(map[]), Some(info)))
    case RecordStep(step, entry) =>
      if r.steps.None? then None else Some(r.(steps := Some(r.steps.value[step := entry])))
    case SetStatus(status) => Some(r.(status := Some(status)))
    case IncrementAttempt(step) =>
      if r.attempts.None? then None
      else Some(r.(attempts := Some(r.attempts.value[step := CountOf(r, step) + 1])))
  }

  function CountOf(r: Record, step: StepName): nat {
    if r.attempts.Some? && step in r.attempts.value then r.attempts.value[step] else 0
  }

  function AttemptCount(item: Option<Record>, step: StepName): nat {
    if item.Some? then CountOf(item.value, step) else 0
  }

  function StatusOf(item: Option<Record>): Option<Status> {
    if item.Some? then item.value.status else None
  }

  function EntryOf(item: Option<Record>, step: StepName): Option<Entry> {
    if item.Some? && item.value.steps.Some? && step in item.value.steps.value
    then Some(item.value.steps.value[step]) else None
  }

  predicate HasMaps(item: Option<Record>) {
    item.Some? && item.value.steps.Some? && item.value.attempts.Some?
  }

  /** The invocation's view of the table: alive, or stopped by an exception from a store call. */
  datatype Session =
    | Open(item: Option<Record>, fault: Fault)
    | Broken(item: Option<Record>, fault: Fault, error: ErrorName)

  function Do(s: Session, w: Write): Session {
    if s.Broken? then s
    else if s.fault.Fault? && s.fault.after == 0 then Broken(s.item, s.fault, s.fault.error)
    else
      var item := ApplyWrite(s.item, w);
      if item.None? then Broken(s.item, s.fault, ClientError)
      else Open(item, if s.fault.Fault? then s.fault.(after := s.fault.after - 1) else NoFault)
  }

  function Lookup(items: map<string, Record>, id: string): Option<Record> {
    if id in items then Some(items[id]) else None
  }

  class SagaStore {
    var items: map<string, Record>
    var fault: Fault

    constructor ()
      ensures items == map[] && fault == NoFault
    {
      items := map[];
      fault := NoFault;
    }

    function SessionOf(orderId: string): (s: Session)
      reads this
    {
      Open(Lookup(items, orderId), fault)
    }

    /** Outcome of a store call: the write's effect on this order's item, nothing on others. */
    twostate predicate Did(orderId: string, w: Write, new raised: Option<ErrorName>)
      reads this
    {
      var s := Do(old(SessionOf(orderId)), w);
      && Lookup(items, orderId) == s.item
      && items - {orderId} == old(items) - {orderId}
      && fault == s.fault
      && raised == if s.Open? then None else Some(s.error)
    }

    /** One update_item or put_item request: refused, interrupted, or applied. */
    method Send(orderId: string, w: Write) returns (raised: Option<ErrorName>)
      modifies this
      ensures Did(orderId, w, raised)
    {
      if fault.Fault? && fault.after == 0 {
        return Some(fault.error);
      }
      var written := ApplyWrite(Lookup(items, orderId), w);
      if written.None? {
        return Some(ClientError);
      }
      items := items[orderId := written.value];
      if fault.Fault? {
        fault := fault.(after := fault.after - 1);
      }
      return None;
    }

    /** `ttlSeconds` is None or the lifetime asked for; a lifetime that is not positive is not stored. */
    method StartSaga(orderId: string, customer: string, amount: real, currency: string, ttlSeconds: Option<int>)
      returns (raised: Option<ErrorName>)
      modifies this
      ensures Did(orderId, Start(OrderInfo(customer, amount, currency, Positive(ttlSeconds))), raised)
      ensures raised.None? ==>
                var info := OrderInfo(customer, amount, currency,
                                      if ttlSeconds.Some? && ttlSeconds.value > 0 then ttlSeconds else None);
                && orderId in items && items[orderId].status == Some(STARTED) && items[orderId].info == Some(info)
                && items[orderId].steps == Some(map[]) && items[orderId].attempts == Some(map[])
    {
      var lifetime := None;
      if ttlSeconds.Some? && ttlSeconds.value > 0 {
        lifetime := ttlSeconds;
      }
      raised := Send(orderId, Start(OrderInfo(customer, amount, currency, lifetime)));
    }

    method Record(orderId: string, step: StepName, mark: Mark, detail: Detail)
      returns (raised: Option<ErrorName>)
      modifies this
      ensures Did(orderId, RecordStep(step, Entry(mark, detail)), raised)
      ensures raised.None? ==>
                var was := old(Lookup(items, orderId));
                && was.Some? && was.value.steps.Some?
                && var steps := was.value.steps.value[step := Entry(mark, detail)];
                   Lookup(items, orderId) == Some(was.value.(steps := Some(steps)))
    {
      raised := Send(orderId, RecordStep(step, Entry(mark, detail)));
    }

    method Status(orderId: string, status: Status) returns (raised: Option<ErrorName>)
      modifies this
      ensures Did(orderId, SetStatus(status), raised)
      ensures raised.None? ==>
                var was := old(Lookup(items, orderId));
                && orderId in items && items[orderId].status == Some(status)
                && (was.Some? ==> items[orderId] == was.value.(status := Some(status)))
                && (was.None? ==> items[orderId].steps == None && items[orderId].attempts == None)
    {
      raised := Send(orderId, SetStatus(status));
    }

    method Increment(orderId: string, step: StepName) returns (raised: Option<ErrorName>, count: nat)
      modifies this
      ensures Did(orderId, IncrementAttempt(step), raised)
      ensures raised.None? ==>
                var was := old(Lookup(items, orderId));
                && was.Some? && was.value.attempts.Some?
                && var counts := was.value.attempts.value;
                   && count == (if step in counts then counts[step] else 0) + 1
                   && Lookup(items, orderId) == Some(was.value.(attempts := Some(counts[step := count])))
    {
      raised := Send(orderId, IncrementAttempt(step));
      count := AttemptCount(Lookup(items, orderId), step);
    }
  }
}
