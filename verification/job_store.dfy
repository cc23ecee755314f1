/** The job table of the long-running pattern: one item per job. */
module JobRecords {
  import opened StatesLanguage

  datatype Status = SUBMITTED | RUNNING | SUCCEEDED | FAILED | COMPLETED

  /** An item, read as the handlers read it: absent counters are 0, absent settings their default.
      `lifetime` is expires_at counted from created_at. */
  datatype Job = Job(status: Option<Status>, attempts: nat, progress: int,
                     succeedAfter: int, failJob: bool, token: Option<string>,
                     payload: string, lifetime: Option<int>)

  datatype Write =
    | Create(succeedAfter: int, failJob: bool, payload: string, lifetime: Option<int>)
    | IncrementAttempt
    | UpdateProgress(status: Status, progress: int)
    | SetStatus(status: Status)
    | AttachToken(token: string)

  const BLANK := Job(None, 0, 0, 3, false, None, "", None)

  /** The item after one write; every update creates a missing item. */
  function Apply(item: Option<Job>, w: Write): Option<Job> {
    var j := if item.Some? then item.value else BLANK;
    match w
    case Create(n, fail, payload, lifetime) => Some(Job(Some(SUBMITTED), 0, 0, n, fail, None, payload, lifetime))
    case IncrementAttempt => Some(j.(attempts := j.attempts + 1))
    case UpdateProgress(st, p) => Some(j.(status := Some(st), progress := p))
    case SetStatus(st) => Some(j.(status := Some(st)))
    case AttachToken(t) => Some(j.(token := Some(t)))
  }

  /** Each write sets its own attributes of an existing item and keeps all others; `create` replaces it. */
  lemma WritesAreSeparate(j: Job, n: int, fail: bool, payload: string, lifetime: Option<int>, st: Status, p: int,
                          token: string)
    ensures Apply(Some(j), IncrementAttempt) == Some(j.(attempts := j.attempts + 1))
    ensures Apply(Some(j), UpdateProgress(st, p)) == Some(j.(status := Some(st), progress := p))
    ensures Apply(Some(j), SetStatus(st)) == Some(j.(status := Some(st)))
    ensures Apply(Some(j), AttachToken(token)) == Some(j.(token := Some(token)))
    ensures Apply(Some(j), Create(n, fail, payload, lifetime)) ==
              Some(Job(Some(SUBMITTED), 0, 0, n, fail, None, payload, lifetime))
  {
  }

  /** The item after the writes that an invocation with this fault gets through. */
  function Through(item: Option<Job>, ws: seq<Write>, fault: Fault): Option<Job>
    decreases |ws|
  {
    if ws == [] || (fault.Fault? && fault.after == 0) then item
    else Through(Apply(item, ws[0]), ws[1..], Later(fault))
  }

  /** The fault as seen after one more store call. */
  function Later(fault: Fault): Fault {
    if fault.Fault? && fault.after > 0 then fault.(after := fault.after - 1) else fault
  }

  function Lookup(items: map<string, Job>, id: string): Option<Job> {
    if id in items then Some(items[id]) else None
  }

  class JobStore {
    var items: map<string, Job>
    var fault: Fault

    constructor ()
      ensures items == map[] && fault == NoFault
    {
      items := map[];
      fault := NoFault;
    }

    /** The records of all other jobs are as they were. */
    twostate predicate OnlyChanges(id: string)
      reads this
    {
      forall k :: k != id ==> Lookup(items, k) == old(Lookup(items, k))
    }

    /** One put_item or update_item request: interrupted, or applied to this job's item only. */
    method Send(id: string, w: Write) returns (raised: Option<ErrorName>)
      modifies this
      ensures raised == if old(fault).Fault? && old(fault).after == 0 then Some(old(fault).error) else None
      ensures Lookup(items, id) == if raised.Some? then old(Lookup(items, id)) else Apply(old(Lookup(items, id)), w)
      ensures OnlyChanges(id) && fault == Later(old(fault))
    {
      if fault.Fault? && fault.after == 0 {
        return Some(fault.error);
      }
      items := items[id := Apply(Lookup(items, id), w).value];
      if fault.Fault? {
        fault := fault.(after := fault.after - 1);
      }
      return None;
    }
  }
}
