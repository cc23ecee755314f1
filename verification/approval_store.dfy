/** The approval-request table: unguarded writes (create, attach_token, set_status) and the one
    conditional write, record_decision. */
module ApprovalRecords {
  import opened StatesLanguage

  datatype Status = PENDING | NOTIFIED | APPROVED | REJECTED

  /** What `create` stores about the request; `lifetime` is expires_at counted from created_at. */
  datatype Details = Details(title: string, amount: Option<real>, requester: string, context: string,
                             lifetime: Option<int>)

  /** An item; `details` is None when no create has written it. */
  datatype Request = Request(status: Status, token: Option<string>, approver: Option<string>, comment: Option<string>,
                             details: Option<Details>)

  predicate Decided(item: Option<Request>) {
    item.Some? && (item.value.status.APPROVED? || item.value.status.REJECTED?)
  }

  /** The condition of record_decision: the item exists and is PENDING or NOTIFIED. */
  predicate Open(item: Option<Request>) {
    item.Some? && (item.value.status.PENDING? || item.value.status.NOTIFIED?)
  }

  datatype Write =
    | Create(details: Details)
    | AttachToken(token: string)
    | SetStatus(status: Status)
    | RecordDecision(decision: Status, approver: string, comment: string)

  const BLANK := Request(PENDING, None, None, None, None)

  predicate Accepted(item: Option<Request>, w: Write) {
    w.RecordDecision? ==> Open(item)
  }

  /** The item after a write; update_item creates a missing item, record_decision never does. */
  function Apply(item: Option<Request>, w: Write): Option<Request> {
    var r := if item.Some? then item.value else BLANK;
    match w
    case Create(details) => Some(BLANK.(details := Some(details)))
    case AttachToken(token) => Some(r.(status := NOTIFIED, token := Some(token)))
    case SetStatus(status) => Some(r.(status := status))
    case RecordDecision(d, a, c) =>
      if Open(item) then Some(r.(status := d, approver := Some(a), comment := Some(c))) else item
  }

  function ApplyAll(item: Option<Request>, ws: seq<Write>): Option<Request> {
    if ws == [] then item else Apply(ApplyAll(item, ws[..|ws| - 1]), ws[|ws| - 1])
  }

  /** How many record_decision calls of a sequence are accepted. */
  function Accepts(item: Option<Request>, ws: seq<Write>): nat {
    if ws == [] then 0
    else
      var rest := ws[..|ws| - 1];
      var last := ws[|ws| - 1];
      Accepts(item, rest) + if last.RecordDecision? && Accepted(ApplyAll(item, rest), last) then 1 else 0
  }

  function Unguarded(ws: seq<Write>): nat {
    if ws == [] then 0
    else Unguarded(ws[..|ws| - 1]) + if ws[|ws| - 1].RecordDecision? then 0 else 1
  }

  predicate Decision(w: Write) {
    w.RecordDecision? && (w.decision.APPROVED? || w.decision.REJECTED?)
  }

  function Credit(item: Option<Request>): nat {
    if Open(item) then 1 else 0
  }

  /** With no assumption on tokens or callers: every accepted decision uses up the opening that
      the initial item or an unguarded write provided, so in any interleaving at most one
      decision is accepted between two consecutive unguarded writes. */
  lemma {:induction false} OneDecisionPerOpening(item: Option<Request>, ws: seq<Write>)
    requires forall w :: w in ws && w.RecordDecision? ==> Decision(w)
    ensures Accepts(item, ws) + Credit(ApplyAll(item, ws)) <= Unguarded(ws) + Credit(item)
  {
    if ws != [] {
      OneDecisionPerOpening(item, ws[..|ws| - 1]);
      assert ws[|ws| - 1] in ws;
    }
  }

  /** Between unguarded writes the first decision is the one that stays. */
  lemma {:induction false} FirstDecisionStays(item: Option<Request>, ws: seq<Write>)
    requires Open(item) && ws != [] && forall w :: w in ws ==> Decision(w)
    ensures ApplyAll(item, ws) == Apply(item, ws[0]) && Accepts(item, ws) == 1
  {
    var last := ws[|ws| - 1];
    assert last in ws && ws[0] in ws;
    if |ws| == 1 {
      assert ws[..0] == [];
      assert ApplyAll(item, ws[..0]) == item && Accepts(item, ws[..0]) == 0;
    } else {
      assert ws[..|ws| - 1][0] == ws[0];
      FirstDecisionStays(item, ws[..|ws| - 1]);
      assert Decided(ApplyAll(item, ws[..|ws| - 1]));
    }
  }

  function Lookup(items: map<string, Request>, id: string): Option<Request> {
    if id in items then Some(items[id]) else None
  }

  class ApprovalStore {
    var items: map<string, Request>

    constructor ()
      ensures items == map[]
    {
      items := map[];
    }

    method Put(id: string, r: Request)
      modifies this
      ensures items == old(items)[id := r]
    {
      items := items[id := r];
    }

    /** A lifetime that is not positive is not stored. */
    method CreateRequest(id: string, title: string, amount: Option<real>, requester: string, context: string,
                         ttlSeconds: Option<int>)
      modifies this
      ensures var details := Details(title, amount, requester, context, Positive(ttlSeconds));
              Lookup(items, id) == Apply(old(Lookup(items, id)), Create(details))
      ensures var lifetime := if ttlSeconds.Some? && ttlSeconds.value > 0 then ttlSeconds else None;
              Lookup(items, id) ==
                Some(Request(PENDING, None, None, None, Some(Details(title, amount, requester, context, lifetime))))
      ensures items - {id} == old(items) - {id}
    {
      var lifetime := None;
      if ttlSeconds.Some? && ttlSeconds.value > 0 {
        lifetime := ttlSeconds;
      }
      Put(id, Request(PENDING, None, None, None, Some(Details(title, amount, requester, context, lifetime))));
    }

    method Attach(id: string, token: string)
      modifies this
      ensures Lookup(items, id) == Apply(old(Lookup(items, id)), AttachToken(token))
      ensures id in items && items[id].status == NOTIFIED && items[id].token == Some(token)
      ensures id in old(items) ==> items[id] == old(items[id]).(status := NOTIFIED, token := Some(token))
      ensures items - {id} == old(items) - {id}
    {
      var r := if id in items then items[id] else BLANK;
      Put(id, r.(status := NOTIFIED, token := Some(token)));
    }

    method ForceStatus(id: string, status: Status)
      modifies this
      ensures Lookup(items, id) == Apply(old(Lookup(items, id)), SetStatus(status))
      ensures id in items && items[id].status == status
      ensures id in old(items) ==> items[id] == old(items[id]).(status := status)
      ensures items - {id} == old(items) - {id}
    {
      var r := if id in items then items[id] else BLANK;
      Put(id, r.(status := status));
    }

    /** AlreadyDecidedError when the condition fails. */
    method Record(id: string, decision: Status, approver: string, comment: string) returns (accepted: bool)
      modifies this
      ensures accepted == Open(old(Lookup(items, id)))
      ensures Lookup(items, id) == Apply(old(Lookup(items, id)), RecordDecision(decision, approver, comment))
      ensures accepted <==> id in old(items) && (old(items[id].status) == PENDING || old(items[id].status) == NOTIFIED)
      ensures if accepted then
                && id in items
                && items[id] ==
                     old(items[id]).(status := decision, approver := Some(approver), comment := Some(comment))
              else items == old(items)
      ensures items - {id} == old(items) - {id}
    {
      accepted := id in items && (items[id].status == PENDING || items[id].status == NOTIFIED);
      if accepted {
        Put(id, items[id].(status := decision, approver := Some(approver), comment := Some(comment)));
      }
    }
  }
}
