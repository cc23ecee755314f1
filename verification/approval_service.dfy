/** decision_handler itself, run without interruption against the request table and the task
    tokens, proved to be one particular schedule of the protocol's actions. */
module ApprovalService {
  import opened StatesLanguage
  import opened ApprovalRecords
  import opened ApprovalProtocol

  datatype HttpEvent = HttpEvent(rawPath: string, params: map<string, string>)

  function Param(e: HttpEvent, key: string): string {
    if key in e.params then e.params[key] else ""
  }

  predicate EndsWith(s: string, suffix: string) {
    |suffix| <= |s| && s[|s| - |suffix|..] == suffix
  }

  function LowerChar(c: char): char {
    if 'A' <= c <= 'Z' then (c as int - 'A' as int + 'a' as int) as char else c
  }

  function Lower(s: string): (r: string)
    ensures |r| == |s|
  {
    if s == "" then "" else [LowerChar(s[0])] + Lower(s[1..])
  }

  datatype Amount = NoAmount | Numeric(value: real) | NotNumeric

  /** The request as submitted; `title` is empty when it is missing or not a string. */
  datatype Spec = Spec(title: string, requestId: string, requester: string, amount: Amount, context: string)

  datatype Prepared = Accepted(id: string) | Refused(error: ErrorName)

  const DEFAULT_TTL_SECONDS := 90 * 24 * 60 * 60

  function DetailsOf(spec: Spec): Details {
    Details(spec.title, if spec.amount.Numeric? then Some(spec.amount.value) else None, spec.requester, spec.context,
            Some(DEFAULT_TTL_SECONDS))
  }

  /** The route decides; only a path that is neither route falls back to the `action` parameter. */
  function ChoiceOf(e: HttpEvent): Option<Choice> {
    if EndsWith(e.rawPath, "/approve") then Some(Approve)
    else if EndsWith(e.rawPath, "/reject") then Some(Reject)
    else
      var action := Lower(Param(e, "action"));
      if action == "approve" then Some(Approve) else if action == "reject" then Some(Reject) else None
  }

  predicate WellFormed(e: HttpEvent) {
    ChoiceOf(e).Some? && Param(e, "request_id") != "" && Param(e, "token") != ""
  }

  function ClickOf(e: HttpEvent, now: string): Click
    requires WellFormed(e)
  {
    Click(ChoiceOf(e).value, if Param(e, "approver") == "" then "unknown" else Param(e, "approver"),
          Param(e, "comment"), now)
  }

  /** The status code a finished invocation has answered; an unhandled exception is a 500. */
  function CodeOf(pc: Pc): nat {
    if pc.Answered? then pc.code else 500
  }

  /** The protocol's schedule of one uninterrupted invocation, number `i`. */
  function Uninterrupted(s: System, click: Click): System {
    var i := |s.calls|;
    var s1 := Step(s, Arrive(click));
    Step(Step(Step(Step(s1, Get(i)), Signal(i)), Record(i)), Answer(i))
  }

  lemma UninterruptedIsARun(s: System, click: Click)
    ensures var i := |s.calls|;
            Uninterrupted(s, click) == RunAll(s, [Arrive(click), Get(i), Signal(i), Record(i), Answer(i)])
  {
    var i := |s.calls|;
    FiveSteps(s, Arrive(click), Get(i), Signal(i), Record(i), Answer(i));
  }

  // ------------------------------------------------ the answer in terms of the event

  /** The same letters, capital or not; `b` is in lower case. */
  predicate SameLetters(a: string, b: string) {
    |a| == |b| && forall i :: 0 <= i < |a| ==> a[i] == b[i] || a[i] as int + 32 == b[i] as int
  }

  lemma {:induction false} LowerMeans(a: string, b: string)
    requires forall c :: c in b ==> 'a' <= c <= 'z'
    ensures Lower(a) == b <==> SameLetters(a, b)
  {
    if a != "" && b != "" {
      assert b[0] in b && forall c :: c in b[1..] ==> c in b;
      LowerMeans(a[1..], b[1..]);
      assert Lower(a)[0] == LowerChar(a[0]) && Lower(a)[1..] == Lower(a[1..]);
      assert Lower(a) == b <==> LowerChar(a[0]) == b[0] && Lower(a[1..]) == b[1..];
      assert forall i :: 0 <= i < |a| - 1 ==> a[1..][i] == a[i + 1];
      assert forall i :: 0 <= i < |b| - 1 ==> b[1..][i] == b[i + 1];
      if SameLetters(a[1..], b[1..]) && LowerChar(a[0]) == b[0] {
        forall i | 0 <= i < |a|
          ensures a[i] == b[i] || a[i] as int + 32 == b[i] as int
        {
          if i > 0 { assert a[1..][i - 1] == a[i]; }
        }
      }
    }
  }

  predicate OnRoute(e: HttpEvent, route: string) {
    |e.rawPath| >= |route| && e.rawPath[|e.rawPath| - |route|..] == route
  }

  /** The click asks for this: by its route, or on any other path by its `action` parameter. */
  predicate AsksFor(e: HttpEvent, route: string, action: string) {
    || OnRoute(e, route)
    || (&& !OnRoute(e, "/approve") && !OnRoute(e, "/reject")
        && "action" in e.params && SameLetters(e.params["action"], action))
  }

  predicate Approves(e: HttpEvent) { AsksFor(e, "/approve", "approve") }
  predicate Rejects(e: HttpEvent) { AsksFor(e, "/reject", "reject") }

  /** A parameter that is present and not empty. */
  predicate Has(e: HttpEvent, key: string) {
    key in e.params && e.params[key] != ""
  }

  predicate Complete(e: HttpEvent) {
    (Approves(e) || Rejects(e)) && Has(e, "request_id") && Has(e, "token")
  }

  lemma LastChar(e: HttpEvent, route: string)
    requires route != "" && OnRoute(e, route)
    ensures e.rawPath != "" && e.rawPath[|e.rawPath| - 1] == route[|route| - 1]
  {
    var n := |e.rawPath| - |route|;
    assert e.rawPath[n..][|route| - 1] == e.rawPath[n + |route| - 1];
  }

  lemma NotBothRoutes(e: HttpEvent)
    ensures !(OnRoute(e, "/approve") && OnRoute(e, "/reject"))
  {
    if OnRoute(e, "/approve") { LastChar(e, "/approve"); }
    if OnRoute(e, "/reject") { LastChar(e, "/reject"); }
  }

  lemma ChoiceMeans(e: HttpEvent)
    ensures ChoiceOf(e) == if Approves(e) then Some(Approve) else if Rejects(e) then Some(Reject) else None
    ensures !(Approves(e) && Rejects(e))
  {
    NotBothRoutes(e);
    LowerMeans(Param(e, "action"), "approve");
    LowerMeans(Param(e, "action"), "reject");
  }

  /** What an uninterrupted click does and answers, in terms of the event: malformed links, unknown and
      decided requests, tasks that no longer wait, and decisions. */
  ghost predicate AnsweredAs(e: HttpEvent, now: string, call: nat, item: Option<Request>, gate: Gate,
                             code: nat, item': Option<Request>, gate': Gate)
  {
    var approver := if Has(e, "approver") then e.params["approver"] else "unknown";
    var comment := if "comment" in e.params then e.params["comment"] else "";
    if item.None? then code == 404 && item' == item && gate' == gate
    else if item.value.status.APPROVED? || item.value.status.REJECTED? then
      code == 409 && item' == item && gate' == gate
    else if gate.NotReached? then code == 500 && item' == item && gate' == gate
    else if !gate.Waiting? then code == 410 && item' == item && gate' == gate
    else
      && code == 200
      && item' == Some(item.value.(status := if Approves(e) then APPROVED else REJECTED,
                                   approver := Some(approver), comment := Some(comment)))
      && gate' == ResumedBy(call, if Approves(e) then TaskSuccess(Click(Approve, approver, comment, now))
                                  else TaskFailure(ApprovalRejected, Click(Reject, approver, comment, now)))
  }

  lemma WellFormedMeans(e: HttpEvent)
    ensures WellFormed(e) <==> Complete(e)
  {
    ChoiceMeans(e);
  }

  lemma ClickMeans(e: HttpEvent, now: string)
    requires Complete(e) && WellFormed(e)
    ensures ClickOf(e, now) ==
              Click(if Approves(e) then Approve else Reject,
                    if Has(e, "approver") then e.params["approver"] else "unknown",
                    if "comment" in e.params then e.params["comment"] else "", now)
  {
    ChoiceMeans(e);
  }

  /** The schedule of an uninterrupted click, computed to its end. */
  lemma UninterruptedEnds(s: System, c: Click)
    requires s.notified
    ensures var t := Uninterrupted(s, c);
            var i := |s.calls|;
            && i < |t.calls|
            && (if s.item.None? then t.calls[i].pc == Answered(404) && t.item == s.item && t.gate == s.gate
                else if Decided(s.item) then t.calls[i].pc == Answered(409) && t.item == s.item && t.gate == s.gate
                else if s.gate.NotReached? then t.calls[i].pc == Crashed(false) && t.item == s.item && t.gate == s.gate
                else if !s.gate.Waiting? then t.calls[i].pc == Answered(410) && t.item == s.item && t.gate == s.gate
                else
                  && t.calls[i].pc == Answered(200) && t.item == Apply(s.item, DecisionOf(c))
                  && t.gate == ResumedBy(i, OutcomeFor(c)))
  {
    var i := |s.calls|;
    var s1 := Step(s, Arrive(c));
    assert s1.calls[i] == Call(c, Arrived);
    var s2 := Step(s1, Get(i));
    assert s2.calls[i].pc == AfterGet(s.item) && s2.calls[i].click == c;
    var s3 := Step(s2, Signal(i));
    var s4 := Step(s3, Record(i));
  }

  lemma ClickIsAnswered(s: System, e: HttpEvent, now: string)
    requires Complete(e) && WellFormed(e) && s.notified
    ensures var t := Uninterrupted(s, ClickOf(e, now));
            var i := |s.calls|;
            i < |t.calls| && AnsweredAs(e, now, i, s.item, s.gate, CodeOf(t.calls[i].pc), t.item, t.gate)
  {
    ClickMeans(e, now);
    UninterruptedEnds(s, ClickOf(e, now));
  }

  class ApprovalEndpoint {
    const store: ApprovalStore
    /** Step Functions' side: the state of each paused task, by token. */
    var tasks: map<string, Gate>

    constructor (store: ApprovalStore)
      ensures this.store == store && tasks == map[]
    {
      this.store := store;
      tasks := map[];
    }

    function GateOf(token: string): Gate
      reads this
    {
      if token in tasks then tasks[token] else NotReached
    }

    /** prepare_request: validate, then create the item. */
    method PrepareRequest(spec: Spec, suffix: string) returns (reply: Prepared)
      modifies store
      ensures spec.title == "" || spec.amount.NotNumeric? ==>
                reply == Refused(OtherError("ApprovalInputError")) && store.items == old(store.items)
      ensures spec.title != "" && !spec.amount.NotNumeric? ==>
                var id := if spec.requestId != "" then spec.requestId else "req-" + suffix;
                && reply == Accepted(id)
                && Lookup(store.items, id) == Apply(old(Lookup(store.items, id)), Create(DetailsOf(spec)))
                && id in store.items && store.items[id].status == PENDING && store.items[id].token == None
                && store.items[id].details ==
                     Some(Details(spec.title, if spec.amount.Numeric? then Some(spec.amount.value) else None,
                                  spec.requester, spec.context, Some(7776000)))
                && store.items - {id} == old(store.items) - {id}
    {
      if spec.title == "" || spec.amount.NotNumeric? {
        return Refused(OtherError("ApprovalInputError"));
      }
      var id := if spec.requestId != "" then spec.requestId else "req-" + suffix;
      var amount := if spec.amount.Numeric? then Some(spec.amount.value) else None;
      store.CreateRequest(id, spec.title, amount, spec.requester, spec.context, Some(DEFAULT_TTL_SECONDS));
      return Accepted(id);
    }

    /** send_approval_email: the token is attached before the mail goes out, so no link exists
        while the write that would reopen a decided request is still to come. */
    method SendApprovalEmail(id: string, token: string, mail: Option<ErrorName>) returns (raised: Option<ErrorName>)
      modifies store
      ensures id == "" || token == "" ==>
                raised == Some(OtherError("ApprovalInputError")) && store.items == old(store.items)
      ensures id != "" && token != "" ==>
                raised == mail &&
                Lookup(store.items, id) == Apply(old(Lookup(store.items, id)), AttachToken(token)) &&
                id in store.items && store.items[id].status == NOTIFIED && store.items[id].token == Some(token) &&
                store.items - {id} == old(store.items) - {id}
    {
      if id == "" || token == "" {
        return Some(OtherError("ApprovalInputError"));
      }
      store.Attach(id, token);
      return mail;
    }

    /** SendTaskSuccess / SendTaskFailure: accepted only while the task waits. */
    method SendTask(token: string, call: nat, outcome: TaskOutcome) returns (accepted: bool)
      modifies this
      ensures accepted == (old(GateOf(token)) == Waiting)
      ensures tasks == if accepted then old(tasks)[token := ResumedBy(call, outcome)] else old(tasks)
    {
      accepted := token in tasks && tasks[token] == Waiting;
      if accepted {
        tasks := tasks[token := ResumedBy(call, outcome)];
      }
    }

    /** The second half of the handler: signal the task, then record the decision. */
    method Resume(id: string, token: string, click: Click, call: nat, ghost s: System) returns (code: nat)
      requires call < |s.calls| && s.calls[call] == Call(click, Fetched)
      requires s.item == Lookup(store.items, id) && s.gate == GateOf(token)
      modifies this, store
      ensures var t := Step(Step(Step(s, Signal(call)), Record(call)), Answer(call));
              && Lookup(store.items, id) == t.item && GateOf(token) == t.gate
              && call < |t.calls| && code == CodeOf(t.calls[call].pc)
      ensures store.items - {id} == old(store.items) - {id} && tasks - {token} == old(tasks) - {token}
    {
      var known := GateOf(token) != NotReached;
      var accepted := SendTask(token, call, OutcomeFor(click));
      if !accepted {
        return if known then 410 else 500;
      }
      ghost var signalled := Step(s, Signal(call));
      assert signalled.calls[call] == Call(click, Signalled);
      var ok := store.Record(id, StatusFor(click.choice), click.approver, click.comment);
      return if ok then 200 else 409;
    }

    /** `s` is the protocol state of the request whose link was clicked. */
    method Decide(event: HttpEvent, now: string, call: nat, ghost s: System) returns (code: nat)
      requires WellFormed(event) ==>
                 && s.notified && call == |s.calls|
                 && s.item == Lookup(store.items, Param(event, "request_id"))
                 && s.gate == GateOf(Param(event, "token"))
      modifies this, store
      ensures !WellFormed(event) ==> code == 400 && tasks == old(tasks) && store.items == old(store.items)
      ensures WellFormed(event) ==>
                var id := Param(event, "request_id");
                var token := Param(event, "token");
                var t := Uninterrupted(s, ClickOf(event, now));
                && Lookup(store.items, id) == t.item && GateOf(token) == t.gate
                && call < |t.calls| && code == CodeOf(t.calls[call].pc)
                && store.items - {id} == old(store.items) - {id}
                && tasks - {token} == old(tasks) - {token}
    {
      var choice := ChoiceOf(event);
      var id := Param(event, "request_id");
      var token := Param(event, "token");
      if choice.None? || id == "" || token == "" {
        return 400;
      }
      var click := ClickOf(event, now);
      ghost var arrived := Step(s, Arrive(click));
      assert arrived.calls[call] == Call(click, Arrived);
      if id !in store.items {
        return 404;
      }
      var record := store.items[id];
      if record.status == APPROVED || record.status == REJECTED {
        return 409;
      }
      ghost var fetched := Step(arrived, Get(call));
      assert fetched.calls[call] == Call(click, Fetched);
      code := Resume(id, token, click, call, fetched);
    }

    /** decision_handler: what it answers in terms of the event and the tables, and that it is one run of
        the protocol from `s`. */
    method DecisionHandler(event: HttpEvent, now: string, call: nat, ghost s: System) returns (code: nat)
      requires Complete(event) ==>
                 && s.notified && call == |s.calls|
                 && s.item == Lookup(store.items, event.params["request_id"])
                 && s.gate == GateOf(event.params["token"])
      modifies this, store
      ensures !Complete(event) ==> code == 400 && tasks == old(tasks) && store.items == old(store.items)
      ensures Complete(event) ==>
                var (id, token) := (event.params["request_id"], event.params["token"]);
                && AnsweredAs(event, now, call, old(Lookup(store.items, id)), old(GateOf(token)),
                              code, Lookup(store.items, id), GateOf(token))
                && store.items - {id} == old(store.items) - {id}
                && tasks - {token} == old(tasks) - {token}
      ensures Complete(event) ==>
                && WellFormed(event)
                && var t := Uninterrupted(s, ClickOf(event, now));
                   && Lookup(store.items, event.params["request_id"]) == t.item
                   && GateOf(event.params["token"]) == t.gate
                   && call < |t.calls| && code == CodeOf(t.calls[call].pc)
    {
      WellFormedMeans(event);
      if Complete(event) { ClickIsAnswered(s, event, now); }
      code := Decide(event, now, call, s);
    }
  }
}
