/** The approval gate as a concurrent protocol: one request, its task token, and any number of
    decision_handler invocations interleaved at `get`, `SendTask*` and `record_decision`, with
    crashes, the task timeout, notification failures and TTL expiry possible at any point.
    Each link carries the token of its own request, and a token can be used once. */
module ApprovalProtocol {
  import opened StatesLanguage
  import opened ApprovalRecords

  datatype Choice = Approve | Reject

  /** One click on a link, with the clock reading of its handler. */
  datatype Click = Click(choice: Choice, approver: string, comment: string, at: string)

  /** What SendTaskSuccess or SendTaskFailure delivers to the paused task. */
  datatype TaskOutcome = TaskSuccess(click: Click) | TaskFailure(error: ErrorName, click: Click)

  datatype Gate =
    | NotReached
    | Waiting
    | ResumedBy(call: nat, outcome: TaskOutcome)
    | GateTimedOut
    | NotificationFailed(error: ErrorName)

  /** Where one decision_handler invocation stands; `recorded` is history. */
  datatype Pc =
    | Arrived
    | Fetched
    | Signalled
    | Recorded(accepted: bool)
    | Answered(code: nat)
    | Crashed(recorded: bool)

  datatype Call = Call(click: Click, pc: Pc)

  /** `notified` and `expired` are history: attach_token has run, TTL has removed the item. */
  datatype System = System(item: Option<Request>, gate: Gate, notified: bool, expired: bool, calls: seq<Call>)

  const START := System(None, NotReached, false, false, [])

  datatype Action =
    | Prepare(details: Details)
    | EnterGate
    | AttachNotice(token: string)
    | FailNotice(error: ErrorName)
    | TimeOut
    | Expire
    | Arrive(click: Click)
    | Get(i: nat)
    | Signal(i: nat)
    | Record(i: nat)
    | Answer(i: nat)
    | Crash(i: nat)

  function StatusFor(c: Choice): Status {
    if c.Approve? then APPROVED else REJECTED
  }

  function OutcomeFor(c: Click): TaskOutcome {
    if c.choice.Approve? then TaskSuccess(c) else TaskFailure(ApprovalRejected, c)
  }

  function DecisionOf(c: Click): Write {
    RecordDecision(StatusFor(c.choice), c.approver, c.comment)
  }

  function Moved(s: System, i: nat, pc: Pc): System
    requires i < |s.calls|
  {
    s.(calls := s.calls[i := s.calls[i].(pc := pc)])
  }

  /** The status check after `get`. */
  function AfterGet(item: Option<Request>): Pc {
    if item.None? then Answered(404) else if Decided(item) then Answered(409) else Fetched
  }

  /** SendTask* with the request's token: accepted once, while the task waits. */
  function AfterSignal(s: System, i: nat): System
    requires i < |s.calls|
  {
    match s.gate
    case Waiting => Moved(s, i, Signalled).(gate := ResumedBy(i, OutcomeFor(s.calls[i].click)))
    case NotReached => Moved(s, i, Crashed(false))
    case _ => Moved(s, i, Answered(410))
  }

  function AfterRecord(s: System, i: nat): System
    requires i < |s.calls|
  {
    var w := DecisionOf(s.calls[i].click);
    Moved(s, i, Recorded(Open(s.item))).(item := Apply(s.item, w))
  }

  /** One atomic action; an action that is not enabled changes nothing. */
  function Step(s: System, a: Action): System {
    match a
    case Prepare(details) => if s.gate.NotReached? then s.(item := Apply(s.item, Create(details))) else s
    case EnterGate => if s.gate.NotReached? && s.item.Some? then s.(gate := Waiting) else s
    case AttachNotice(token) =>
      if !s.gate.NotReached? && !s.notified then s.(item := Apply(s.item, AttachToken(token)), notified := true) else s
    case FailNotice(e) => if s.gate.Waiting? then s.(gate := NotificationFailed(e)) else s
    case TimeOut => if s.gate.Waiting? then s.(gate := GateTimedOut) else s
    case Expire => s.(item := None, expired := true)
    case Arrive(click) => if s.notified then s.(calls := s.calls + [Call(click, Arrived)]) else s
    case Get(i) => if i < |s.calls| && s.calls[i].pc == Arrived then Moved(s, i, AfterGet(s.item)) else s
    case Signal(i) => if i < |s.calls| && s.calls[i].pc == Fetched then AfterSignal(s, i) else s
    case Record(i) => if i < |s.calls| && s.calls[i].pc == Signalled then AfterRecord(s, i) else s
    case Answer(i) =>
      if i < |s.calls| && s.calls[i].pc.Recorded? then
        Moved(s, i, Answered(if s.calls[i].pc.accepted then 200 else 409))
      else s
    case Crash(i) =>
      if i < |s.calls| && !s.calls[i].pc.Answered? && !s.calls[i].pc.Crashed? then
        Moved(s, i, Crashed(s.calls[i].pc == Recorded(true)))
      else s
  }

  function RunAll(s: System, actions: seq<Action>): System
    decreases |actions|
  {
    if actions == [] then s else RunAll(Step(s, actions[0]), actions[1..])
  }

  // ------------------------------------------------ the invariant

  /** The invocation got its signal accepted. */
  predicate Won(pc: Pc) {
    pc.Signalled? || pc.Recorded? || pc == Answered(200)
  }

  /** Its decision is in the table (unless the item has expired since). */
  predicate HasRecorded(pc: Pc) {
    pc == Recorded(true) || pc == Answered(200) || pc == Crashed(true)
  }

  /** The item as the winner's record_decision leaves it. */
  ghost predicate RecordedFor(item: Option<Request>, c: Click) {
    && item.Some? && item.value.status == StatusFor(c.choice)
    && item.value.approver == Some(c.approver) && item.value.comment == Some(c.comment)
  }

  /** Call `w` resumed the execution, and what is stored is its decision or nothing yet. */
  ghost predicate WinnerFits(s: System, w: nat) {
    && w < |s.calls|
    && s.gate == ResumedBy(w, OutcomeFor(s.calls[w].click))
    && (HasRecorded(s.calls[w].pc) && !s.expired ==> RecordedFor(s.item, s.calls[w].click))
    && (HasRecorded(s.calls[w].pc) && s.expired ==> s.item == None || RecordedFor(s.item, s.calls[w].click))
    && (!HasRecorded(s.calls[w].pc) ==> !Decided(s.item))
    && (s.calls[w].pc == Recorded(false) || s.calls[w].pc == Answered(409) ==> s.expired)
    && s.calls[w].pc != Arrived && s.calls[w].pc != Fetched
  }

  ghost predicate Inv(s: System) {
    && (s.gate.NotReached? ==> !s.notified)
    && (!s.notified ==> s.calls == [] && !Decided(s.item))
    && (s.gate.ResumedBy? ==> WinnerFits(s, s.gate.call))
    && (!s.gate.ResumedBy? ==> !Decided(s.item))
    && (forall i :: 0 <= i < |s.calls| && (Won(s.calls[i].pc) || HasRecorded(s.calls[i].pc)) ==>
          s.gate.ResumedBy? && s.gate.call == i)
    && (s.notified && !s.expired ==> s.item.Some?)
  }

  lemma SignalKeeps(s: System, i: nat)
    requires Inv(s) && i < |s.calls| && s.calls[i].pc == Fetched
    ensures Inv(AfterSignal(s, i))
  {
    var t := AfterSignal(s, i);
    assert forall k :: 0 <= k < |s.calls| && k != i ==> t.calls[k] == s.calls[k];
  }

  lemma RecordKeeps(s: System, i: nat)
    requires Inv(s) && i < |s.calls| && s.calls[i].pc == Signalled
    ensures Inv(AfterRecord(s, i))
  {
    var t := AfterRecord(s, i);
    assert Won(s.calls[i].pc);
    assert forall k :: 0 <= k < |s.calls| && k != i ==> t.calls[k] == s.calls[k];
    assert s.item.Some? && !Decided(s.item) ==> Open(s.item);
  }

  /** Moving a call on without a new win, and without touching anything else. */
  lemma MoveKeeps(s: System, i: nat, pc: Pc)
    requires Inv(s) && i < |s.calls|
    requires Won(pc) ==> Won(s.calls[i].pc)
    requires HasRecorded(pc) == HasRecorded(s.calls[i].pc)
    requires (pc != Arrived && pc != Fetched) || (s.calls[i].pc == Arrived && pc == Fetched)
    requires pc == Recorded(false) || pc == Answered(409) ==>
               s.calls[i].pc == Recorded(false) || s.calls[i].pc == Arrived
    ensures Inv(Moved(s, i, pc))
  {
    var t := Moved(s, i, pc);
    assert forall k :: 0 <= k < |s.calls| && k != i ==> t.calls[k] == s.calls[k];
    if s.gate.ResumedBy? {
      assert WinnerFits(s, s.gate.call);
    }
  }

  lemma StepKeeps(s: System, a: Action)
    requires Inv(s)
    ensures Inv(Step(s, a))
  {
    match a
    case Get(i) =>
      if i < |s.calls| && s.calls[i].pc == Arrived { MoveKeeps(s, i, AfterGet(s.item)); }
    case Signal(i) =>
      if i < |s.calls| && s.calls[i].pc == Fetched { SignalKeeps(s, i); }
    case Record(i) =>
      if i < |s.calls| && s.calls[i].pc == Signalled { RecordKeeps(s, i); }
    case Answer(i) =>
      if i < |s.calls| && s.calls[i].pc.Recorded? {
        MoveKeeps(s, i, Answered(if s.calls[i].pc.accepted then 200 else 409));
      }
    case Crash(i) =>
      if i < |s.calls| && !s.calls[i].pc.Answered? && !s.calls[i].pc.Crashed? {
        MoveKeeps(s, i, Crashed(s.calls[i].pc == Recorded(true)));
      }
    case Arrive(click) =>
      var t := Step(s, a);
      assert forall k :: 0 <= k < |s.calls| ==> t.calls[k] == s.calls[k];
    case _ =>
  }

  lemma {:induction false} RunKeeps(s: System, actions: seq<Action>)
    requires Inv(s)
    ensures Inv(RunAll(s, actions))
    decreases |actions|
  {
    if actions != [] {
      StepKeeps(s, actions[0]);
      RunKeeps(Step(s, actions[0]), actions[1..]);
    }
  }

  // ------------------------------------------------ what the gate's catch list does

  datatype GateState = RecordApproval | HandleRejection | ApprovalTimedOut | ApprovalError

  const GATE_CATCH := [Rule([Named(ApprovalRejected)], Fallback("$.decision", HandleRejection)),
                       Rule([Named(StatesTimeout)], Fallback("$.error", ApprovalTimedOut)),
                       Rule([AllErrors], Fallback("$.error", ApprovalError))]

  function OnGateError(e: ErrorName): GateState {
    match OnError<string, GateState>([], GATE_CATCH, map[], e)
    case CaughtBy(fallback) => fallback.next
    case _ => ApprovalError
  }

  /** The state that follows RequestApproval, None while it waits. */
  function NextState(g: Gate): Option<GateState> {
    match g
    case NotReached => None
    case Waiting => None
    case ResumedBy(_, TaskSuccess(_)) => Some(RecordApproval)
    case ResumedBy(_, TaskFailure(e, _)) => Some(OnGateError(e))
    case GateTimedOut => Some(OnGateError(StatesTimeout))
    case NotificationFailed(e) => Some(OnGateError(e))
  }

  /** The ordered catch list: rejection first, then the timeout, then everything else. */
  lemma GateErrors(e: ErrorName)
    ensures OnGateError(e) ==
      if e == ApprovalRejected then HandleRejection
      else if e == StatesTimeout then ApprovalTimedOut else ApprovalError
  {
    var rs := GATE_CATCH;
    assert Covers(rs[2].errors, e);
    assert Covers(rs[0].errors, e) <==> e == ApprovalRejected;
    assert Covers(rs[1].errors, e) <==> e == StatesTimeout;
    assert FirstRule(rs, e).Some?;
  }

  /** Every exit of the gate: approval, rejection, timeout, failed notification. */
  lemma GateExits(g: Gate)
    ensures NextState(g) ==
      match g
      case NotReached => None
      case Waiting => None
      case ResumedBy(_, TaskSuccess(_)) => Some(RecordApproval)
      case ResumedBy(_, TaskFailure(e, _)) =>
        Some(if e == ApprovalRejected then HandleRejection
             else if e == StatesTimeout then ApprovalTimedOut else ApprovalError)
      case GateTimedOut => Some(ApprovalTimedOut)
      case NotificationFailed(e) =>
        Some(if e == ApprovalRejected then HandleRejection
             else if e == StatesTimeout then ApprovalTimedOut else ApprovalError)
  {
    GateErrors(StatesTimeout);
    match g
    case ResumedBy(_, TaskFailure(e, _)) => GateErrors(e);
    case NotificationFailed(e) => GateErrors(e);
    case _ =>
  }

  /** After record_decision the handler answers 200 if it was accepted, and 409 for AlreadyDecidedError. */
  lemma RecordedAnswers(s: System, i: nat, accepted: bool)
    requires i < |s.calls| && s.calls[i].pc == Recorded(accepted)
    ensures Step(s, Answer(i)).calls[i].pc == Answered(if accepted then 200 else 409)
  {
  }

  /** While the task waits, its timeout and a failing notification end it as the catch list says. */
  lemma GateEnds(s: System, e: ErrorName)
    requires s.gate.Waiting?
    ensures NextState(Step(s, TimeOut).gate) == Some(ApprovalTimedOut) && Step(s, TimeOut).item == s.item
    ensures NextState(Step(s, FailNotice(e)).gate) ==
              Some(if e == ApprovalRejected then HandleRejection
                   else if e == StatesTimeout then ApprovalTimedOut else ApprovalError)
  {
    GateExits(Step(s, TimeOut).gate);
    GateExits(Step(s, FailNotice(e)).gate);
  }

  // ------------------------------------------------ theorems over all interleavings

  /** Agreement: a stored decision is the one that resumed the execution, by the same approver,
      and the execution goes on to the matching state; at most one invocation answers 200, and it
      is the one that resumed the execution. */
  lemma DecisionAgreement(actions: seq<Action>)
    ensures var s := RunAll(START, actions);
            && (Decided(s.item) ==>
                  && s.gate.ResumedBy? && s.gate.call < |s.calls|
                  && var c := s.calls[s.gate.call].click;
                     && s.gate.outcome == OutcomeFor(c) && RecordedFor(s.item, c)
                     && NextState(s.gate) ==
                          Some(if s.item.value.status.APPROVED? then RecordApproval else HandleRejection))
            && (forall i :: 0 <= i < |s.calls| && s.calls[i].pc == Answered(200) ==>
                  s.gate == ResumedBy(i, OutcomeFor(s.calls[i].click)) &&
                  (!s.expired ==> RecordedFor(s.item, s.calls[i].click)))
  {
    assert Inv(START);
    RunKeeps(START, actions);
    GateErrors(ApprovalRejected);
    var s := RunAll(START, actions);
    forall i | 0 <= i < |s.calls| && s.calls[i].pc == Answered(200)
      ensures s.gate == ResumedBy(i, OutcomeFor(s.calls[i].click))
      ensures !s.expired ==> RecordedFor(s.item, s.calls[i].click)
    {
      assert Won(s.calls[i].pc);
    }
  }

  /** A decision is final: after any run, no action but TTL expiry changes a decided item; once the
      gate is resolved it stays so, and a gate that was not resumed by a call never has a decision. */
  lemma DecisionIsFinal(actions: seq<Action>, a: Action)
    ensures var s := RunAll(START, actions);
            && (Decided(s.item) && !a.Expire? ==> Step(s, a).item == s.item)
            && (!s.gate.NotReached? && !s.gate.Waiting? ==> Step(s, a).gate == s.gate)
            && (s.gate.GateTimedOut? || s.gate.NotificationFailed? ==> !Decided(s.item) && !Decided(Step(s, a).item))
  {
    assert Inv(START);
    RunKeeps(START, actions);
    StepKeeps(RunAll(START, actions), a);
  }

  predicate NeverExpires(actions: seq<Action>) {
    forall a :: a in actions ==> !a.Expire?
  }

  lemma {:induction false} StaysUnexpired(s: System, actions: seq<Action>)
    requires NeverExpires(actions)
    ensures RunAll(s, actions).expired == s.expired
    decreases |actions|
  {
    if actions != [] {
      assert actions[0] in actions;
      StaysUnexpired(Step(s, actions[0]), actions[1..]);
    }
  }

  /** What the token contributes: while the record is there, whoever got the signal through finds
      it open, so AlreadyDecidedError is never raised. */
  lemma WinnerNeverConflicts(actions: seq<Action>, i: nat)
    requires NeverExpires(actions)
    ensures var s := RunAll(START, actions);
            i < |s.calls| ==>
              && (s.calls[i].pc == Signalled ==> Open(s.item))
              && s.calls[i].pc != Recorded(false)
  {
    assert Inv(START);
    RunKeeps(START, actions);
    StaysUnexpired(START, actions);
    var s := RunAll(START, actions);
    assert i < |s.calls| && Won(s.calls[i].pc) ==> s.gate.ResumedBy? && s.gate.call == i;
  }

  /** The action kills an invocation whose signal was accepted, before its record_decision. */
  predicate Kills(s: System, a: Action) {
    a.Crash? && a.i < |s.calls| && s.calls[a.i].pc == Signalled
  }

  /** Some action of the schedule does. */
  predicate DiedBetween(s: System, actions: seq<Action>)
    decreases |actions|
  {
    actions != [] && (Kills(s, actions[0]) || DiedBetween(Step(s, actions[0]), actions[1..]))
  }

  /** What a schedule leaves of the winner: dead if it was killed, and otherwise about to record
      its decision or past that. */
  ghost predicate WinnerFate(s: System, died: bool) {
    if s.gate.ResumedBy? then
      && s.gate.call < |s.calls|
      && var pc := s.calls[s.gate.call].pc;
         if died then pc == Crashed(false) else pc == Signalled || HasRecorded(pc)
    else !died
  }

  lemma StepFate(s: System, a: Action, died: bool)
    requires Inv(s) && !s.expired && !a.Expire? && WinnerFate(s, died)
    ensures WinnerFate(Step(s, a), died || Kills(s, a))
  {
    StepKeeps(s, a);
    assert forall i :: 0 <= i < |s.calls| && s.calls[i].pc == Signalled ==> Won(s.calls[i].pc);
  }

  lemma {:induction false} RunFate(s: System, actions: seq<Action>, died: bool)
    requires Inv(s) && !s.expired && NeverExpires(actions) && WinnerFate(s, died)
    ensures WinnerFate(RunAll(s, actions), died || DiedBetween(s, actions))
    decreases |actions|
  {
    if actions != [] {
      assert actions[0] in actions;
      StepKeeps(s, actions[0]);
      StepFate(s, actions[0], died);
      RunFate(Step(s, actions[0]), actions[1..], died || Kills(s, actions[0]));
    }
  }

  /** Resumption alone does not imply a stored decision. Exactly when it does, while the record is
      there: a resumed request is decided if and only if the schedule did not kill an invocation
      between its accepted signal and record_decision, and the winner is not still between them. */
  lemma ResumedIsRecordedIff(actions: seq<Action>)
    requires NeverExpires(actions)
    ensures var s := RunAll(START, actions);
            s.gate.ResumedBy? ==>
              && s.gate.call < |s.calls|
              && (Decided(s.item) <==> s.calls[s.gate.call].pc != Signalled && !DiedBetween(START, actions))
  {
    assert Inv(START);
    RunKeeps(START, actions);
    StaysUnexpired(START, actions);
    RunFate(START, actions, false);
  }

  /** A winner that crashed in between leaves the request undecided in every continuation. */
  lemma {:induction false} CrashedWinnerNeverRecords(s: System, actions: seq<Action>)
    requires Inv(s) && s.gate.ResumedBy? && s.calls[s.gate.call].pc == Crashed(false)
    ensures var t := RunAll(s, actions);
            !Decided(t.item) && t.gate == s.gate && s.gate.call < |t.calls| && t.calls[s.gate.call].pc == Crashed(false)
    decreases |actions|
  {
    if actions != [] {
      var t := Step(s, actions[0]);
      StepKeeps(s, actions[0]);
      assert t.gate == s.gate && t.calls[s.gate.call].pc == Crashed(false);
      CrashedWinnerNeverRecords(t, actions[1..]);
    }
  }

  function Created(d: Details): Request {
    BLANK.(details := Some(d))
  }

  /** Asked, notified, clicked and fetched. */
  function FetchedFirst(d: Details, c: Click, token: string): System {
    System(Some(Created(d).(status := NOTIFIED, token := Some(token))), Waiting, true, false, [Call(c, Fetched)])
  }

  lemma ReachesFetched(d: Details, c: Click, token: string)
    ensures var asked := START.(item := Some(Created(d)), gate := Waiting);
            Step(Step(Step(asked, AttachNotice(token)), Arrive(c)), Get(0)) == FetchedFirst(d, c, token)
  {
  }

  lemma CrashAfterSignal(d: Details, c: Click, token: string)
    ensures var s := Step(Step(FetchedFirst(d, c, token), Signal(0)), Crash(0));
            s == FetchedFirst(d, c, token).(gate := ResumedBy(0, OutcomeFor(c)), calls := [Call(c, Crashed(false))])
  {
  }

  /** Such a crash can happen: the execution is approved, the table still says NOTIFIED. */
  lemma CrashLeavesUndecided(d: Details, c: Click, token: string)
    ensures var killed := [AttachNotice(token), Arrive(c), Get(0), Signal(0), Crash(0)];
            var s := RunAll(START, [Prepare(d), EnterGate] + killed);
            && s.gate == ResumedBy(0, OutcomeFor(c)) && |s.calls| == 1 && s.calls[0].pc == Crashed(false)
            && s.item.Some? && s.item.value.status == NOTIFIED
  {
    PreparedAndAsked(d, [AttachNotice(token), Arrive(c), Get(0), Signal(0), Crash(0)]);
    var asked := START.(item := Some(Created(d)), gate := Waiting);
    FiveSteps(asked, AttachNotice(token), Arrive(c), Get(0), Signal(0), Crash(0));
    ReachesFetched(d, c, token);
    CrashAfterSignal(d, c, token);
  }

  lemma FiveSteps(s: System, a: Action, b: Action, c: Action, d: Action, e: Action)
    ensures RunAll(s, [a, b, c, d, e]) == Step(Step(Step(Step(Step(s, a), b), c), d), e)
  {
    var s1 := Step(s, a);
    var s2 := Step(s1, b);
    var s3 := Step(s2, c);
    var s4 := Step(s3, d);
    RunCons(s, a, [b, c, d, e]);
    RunCons(s1, b, [c, d, e]);
    RunCons(s2, c, [d, e]);
    RunCons(s3, d, [e]);
    RunCons(s4, e, []);
    assert [a] + [b, c, d, e] == [a, b, c, d, e] && [b] + [c, d, e] == [b, c, d, e];
    assert [c] + [d, e] == [c, d, e] && [d] + [e] == [d, e] && [e] + [] == [e];
  }

  lemma RunCons(s: System, a: Action, rest: seq<Action>)
    ensures RunAll(s, [a] + rest) == RunAll(Step(s, a), rest)
  {
    assert ([a] + rest)[1..] == rest;
  }

  lemma PreparedAndAsked(d: Details, rest: seq<Action>)
    ensures RunAll(START, [Prepare(d), EnterGate] + rest) ==
              RunAll(START.(item := Some(Created(d)), gate := Waiting), rest)
  {
    RunCons(START, Prepare(d), [EnterGate] + rest);
    RunCons(Step(START, Prepare(d)), EnterGate, rest);
    assert [Prepare(d), EnterGate] + rest == [Prepare(d)] + ([EnterGate] + rest);
  }
}
