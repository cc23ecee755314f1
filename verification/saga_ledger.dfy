/** What a saga did to the outside world against what it took back: the resources its forward handlers
    created, one per attempt that ran to its end, and those that its compensation handlers gave back,
    whether or not Step Functions heard of it. */
module SagaLedger {
  import opened StatesLanguage
  import opened SagaRecords
  import opened SagaHandlers
  import opened SagaMachine
  import opened SagaRollback
  import opened SagaAgreement
  import opened SagaLifecycle

  /** For one forward step: the identifiers its handler made and those its compensation gave back, and
      how many attempts of either lost their reply after the handler had finished. */
  datatype Ledger = Ledger(made: seq<Detail>, given: seq<Detail>, lost: nat, lostBack: nat)

  const BLANK := Ledger([], [], 0, 0)

  /** The handler of step `f` runs to its return statement in this event. */
  predicate Acts(x: Execution, e: Event, f: Forward) {
    x.at == At(Run(f)) && e.Attempt? && Call(Forwards(f), x.doc, Open(x.item, e.fault), e.suffix).1.Returned?
  }

  function CreatedBy(x: Execution, e: Event, f: Forward): Detail
    requires Acts(x, e, f)
  {
    DetailFor(Call(Forwards(f), x.doc, Open(x.item, e.fault), e.suffix).1.output)
  }

  /** The compensation handler of step `f` runs to its return statement in this event. */
  predicate GivesBack(x: Execution, e: Event, f: Forward) {
    && x.at.At? && x.at.state.Undo? && Undone(x.at.state.c) == f && e.Attempt?
    && Call(Undoes(x.at.state.c), x.doc, Open(x.item, e.fault), e.suffix).1.Returned?
  }

  function Post(x: Execution, e: Event, f: Forward, l: Ledger): Ledger {
    if Acts(x, e, f) then
      l.(made := l.made + [CreatedBy(x, e, f)],
         lost := l.lost + if LosesReply(Forwards(f), x.doc, x.item, e.fault, e.suffix) then 1 else 0)
    else if GivesBack(x, e, f) then
      l.(given := l.given + [CompensationEntry(x.at.state.c, x.doc).detail],
         lostBack := l.lostBack + if LosesReply(Undoes(x.at.state.c), x.doc, x.item, e.fault, e.suffix) then 1 else 0)
    else l
  }

  function LedgerOf(x: Execution, events: seq<Event>, f: Forward, l: Ledger): Ledger
    decreases |events|
  {
    if events == [] then l else LedgerOf(Step(x, events[0]), events[1..], f, Post(x, events[0], f, l))
  }

  // ------------------------------------------------ the balance of a ledger

  predicate WasUndone(x: Execution, f: Forward) {
    CompensatorOf(f) != [] && CompensatorOf(f)[0] in x.log.compensated
  }

  ghost predicate Balanced(x: Execution, f: Forward, l: Ledger) {
    var done := f in x.log.succeeded;
    && |l.made| == l.lost + (if done then 1 else 0)
    && (done ==> f in x.log.returned && l.made[|l.made| - 1] == DetailFor(x.log.returned[f]))
    && (WasUndone(x, f) ==> done)
    && |l.given| == l.lostBack + (if WasUndone(x, f) then 1 else 0)
    && (forall d :: d in l.given ==> done && d == DetailFor(x.log.returned[f]))
  }

  /** Nothing is compensated twice. */
  lemma NotYetUndone(x: Execution, c: Compensation)
    requires Ordered(x) && x.at == At(Undo(c))
    ensures c !in x.log.compensated
  {
    var k := |x.log.succeeded|;
    UndoneSucceeded(x, c);
    if k == 1 {
      PrefixCompensators(x, ChargePayment);
    } else if k == 2 {
      PrefixCompensators(x, ReserveInventory);
    } else if k == 3 {
      PrefixCompensators(x, ScheduleShipment);
    }
  }

  /** On the rollback path what was and is to be undone is one whole undo chain. */
  lemma PrefixCompensators(x: Execution, f: Forward)
    requires Ordered(x) && x.at.At? && x.at.state.Undo? && |x.log.succeeded| == Rank(f) > 0
    ensures x.log.compensated + UndoChain(x.at.state.c) == StillToUndo(OnForwardFailure(f))
  {
    assert x.log.succeeded == Before(f);
    CatchEntersReverseChain(f);
  }

  /** A ledger is about the log: what leaves the log alone leaves the balance alone. */
  lemma SameLogBalanced(x: Execution, y: Execution, f: Forward, l: Ledger)
    requires Balanced(x, f, l)
    requires y.log.compensated == x.log.compensated
    requires f in y.log.succeeded <==> f in x.log.succeeded
    requires f in x.log.returned ==> f in y.log.returned && y.log.returned[f] == x.log.returned[f]
    ensures Balanced(y, f, l)
  {
  }

  /** What one Task attempt adds to the log. */
  lemma AttemptLogs(x: Execution, s: StateName, e: Event)
    requires x.at == At(s) && e.Attempt? && Definition(s).TaskState?
    ensures var (after, reply) := Invoke(Definition(s).handler, x.doc, x.item, e.fault, e.suffix);
            var y := Step(x, e);
            && (reply.Raised? || !s.Run? ==> y.log.succeeded == x.log.succeeded && y.log.returned == x.log.returned)
            && (reply.Raised? || !s.Undo? ==> y.log.compensated == x.log.compensated)
            && (reply.Returned? && s.Run? ==>
                  && y.log.succeeded == x.log.succeeded + [s.f]
                  && y.log.returned == x.log.returned[s.f := reply.output])
            && (reply.Returned? && s.Undo? ==> y.log.compensated == x.log.compensated + [s.c])
  {
    var (after, reply) := Invoke(Definition(s).handler, x.doc, x.item, e.fault, e.suffix);
    if reply.Raised? { RaiseLeavesResults(Attempted(x, s, after), s, reply.error); }
  }

  /** An attempt that acts either reports its result or loses its reply. */
  lemma ActsOrLoses(x: Execution, f: Forward, e: Event)
    requires x.at == At(Run(f)) && e.Attempt?
    ensures var reply := Invoke(Forwards(f), x.doc, x.item, e.fault, e.suffix).1;
            var loses := LosesReply(Forwards(f), x.doc, x.item, e.fault, e.suffix);
            && (Acts(x, e, f) <==> reply.Returned? || loses) && !(reply.Returned? && loses)
            && (reply.Returned? ==> CreatedBy(x, e, f) == DetailFor(reply.output))
  {
  }

  lemma ForwardPosts(x: Execution, f: Forward, e: Event, l: Ledger)
    requires Ordered(x) && Agreed(x) && Balanced(x, f, l) && x.at == At(Run(f)) && e.Attempt?
    ensures Balanced(Step(x, e), f, Post(x, e, f, l))
  {
    AttemptLogs(x, Run(f), e);
    NotYetDone(x, f);
    ActsOrLoses(x, f, e);
    ActPosts(x, Step(x, e), f, Post(x, e, f, l), l);
  }

  lemma ActPosts(x: Execution, y: Execution, f: Forward, m: Ledger, l: Ledger)
    requires Balanced(x, f, l) && f !in x.log.succeeded && y.log.compensated == x.log.compensated
    requires m.given == l.given && m.lostBack == l.lostBack && (m == l || |m.made| == |l.made| + 1)
    requires if y.log.succeeded == x.log.succeeded then m == l || m.lost == l.lost + 1
             else
               && y.log.succeeded == x.log.succeeded + [f] && f in y.log.returned
               && m.lost == l.lost && m.made == l.made + [DetailFor(y.log.returned[f])]
    ensures Balanced(y, f, m)
  {
  }

  lemma OtherForwardPosts(x: Execution, g: Forward, f: Forward, e: Event, l: Ledger)
    requires Balanced(x, f, l) && x.at == At(Run(g)) && g != f && e.Attempt?
    ensures Balanced(Step(x, e), f, l)
  {
    AttemptLogs(x, Run(g), e);
    SameLogBalanced(x, Step(x, e), f, l);
  }

  /** A compensation attempt that acts either reports it or loses its reply. */
  lemma UndoActsOrLoses(x: Execution, c: Compensation, e: Event)
    requires x.at == At(Undo(c)) && e.Attempt?
    ensures var reply := Invoke(Undoes(c), x.doc, x.item, e.fault, e.suffix).1;
            var loses := LosesReply(Undoes(c), x.doc, x.item, e.fault, e.suffix);
            (GivesBack(x, e, Undone(c)) <==> reply.Returned? || loses) && !(reply.Returned? && loses)
  {
  }

  lemma UndoPosts(x: Execution, c: Compensation, f: Forward, e: Event, l: Ledger)
    requires Ordered(x) && Agreed(x) && Balanced(x, f, l) && x.at == At(Undo(c)) && e.Attempt?
    requires f != CreateOrder
    ensures Balanced(Step(x, e), f, Post(x, e, f, l))
  {
    AttemptLogs(x, Undo(c), e);
    UndoActsOrLoses(x, c, e);
    UndoneSucceeded(x, c);
    TargetIsRight(x, c);
    NotYetUndone(x, c);
    if Undone(c) == f {
      GivenPosts(x, Step(x, e), c, f, Post(x, e, f, l), l);
    } else {
      assert CompensatorOf(f) != [c];
      OtherUndone(x, Step(x, e), c, f, l);
    }
  }

  lemma GivenPosts(x: Execution, y: Execution, c: Compensation, f: Forward, m: Ledger, l: Ledger)
    requires Balanced(x, f, l) && c !in x.log.compensated && CompensatorOf(f) == [c]
    requires f in x.log.succeeded && f in x.log.returned
    requires y.log.succeeded == x.log.succeeded && y.log.returned == x.log.returned
    requires m.made == l.made && m.lost == l.lost
    requires if y.log.compensated == x.log.compensated then
               m == l || (m.lostBack == l.lostBack + 1 && m.given == l.given + [DetailFor(x.log.returned[f])])
             else
               && y.log.compensated == x.log.compensated + [c]
               && m.lostBack == l.lostBack && m.given == l.given + [DetailFor(x.log.returned[f])]
    ensures Balanced(y, f, m)
  {
  }

  lemma OtherUndone(x: Execution, y: Execution, c: Compensation, f: Forward, l: Ledger)
    requires Balanced(x, f, l) && CompensatorOf(f) != [c]
    requires y.log.succeeded == x.log.succeeded && y.log.returned == x.log.returned
    requires y.log.compensated == x.log.compensated || y.log.compensated == x.log.compensated + [c]
    ensures Balanced(y, f, l)
  {
  }

  lemma MarkPosts(x: Execution, s: StateName, f: Forward, e: Event, l: Ledger)
    requires Balanced(x, f, l) && x.at == At(s) && (s.CompleteSaga? || s.MarkFailed?) && e.Attempt?
    ensures Balanced(Step(x, e), f, l)
  {
    AttemptLogs(x, s, e);
    SameLogBalanced(x, Step(x, e), f, l);
  }

  lemma StepPosts(x: Execution, e: Event, f: Forward, l: Ledger)
    requires Ordered(x) && Agreed(x) && Balanced(x, f, l) && f != CreateOrder
    ensures Balanced(Step(x, e), f, Post(x, e, f, l))
  {
    if !Halted(x) && e.Attempt? {
      match x.at.state
      case Run(g) => if g == f { ForwardPosts(x, f, e, l); } else { OtherForwardPosts(x, g, f, e, l); }
      case Undo(c) => UndoPosts(x, c, f, e, l);
      case CompleteSaga => MarkPosts(x, CompleteSaga, f, e, l);
      case MarkFailed => MarkPosts(x, MarkFailed, f, e, l);
      case _ =>
    }
  }

  lemma {:induction false} RunPosts(x: Execution, events: seq<Event>, f: Forward, l: Ledger)
    requires Ordered(x) && Agreed(x) && Balanced(x, f, l) && f != CreateOrder
    ensures Balanced(RunAll(x, events), f, LedgerOf(x, events, f, l))
    decreases |events|
  {
    if events != [] {
      StepPosts(x, events[0], f, l);
      StepKeepsOrder(x, events[0]);
      StepKeepsAgreement(x, events[0]);
      RunPosts(Step(x, events[0]), events[1..], f, Post(x, events[0], f, l));
    }
  }

  // ------------------------------------------------ what is left behind

  lemma {:induction false} ForwardHasCompensator(done: seq<Forward>, f: Forward)
    requires f in done && CompensatorOf(f) != []
    ensures CompensatorOf(f)[0] in Compensators(done)
  {
    if done[|done| - 1] != f {
      assert f in done[..|done| - 1];
      ForwardHasCompensator(done[..|done| - 1], f);
    }
  }

  /** A rolled-back saga has undone a step exactly when it succeeded. */
  lemma RolledBackIsUndone(x: Execution, f: Forward)
    requires Ordered(x) && x.at == At(SagaFailed)
    ensures WasUndone(x, f) <==> f in x.log.succeeded
  {
    assert x.log.compensated + [] == x.log.compensated;
    if WasUndone(x, f) {
      CompensatorHasForward(x.log.succeeded, CompensatorOf(f)[0]);
    }
    if f in x.log.succeeded {
      NotAllSucceeded(x, f);
      ForwardHasCompensator(x.log.succeeded, f);
    }
  }

  /** The shipment is the last step: short of all four, it has not succeeded. */
  lemma NotAllSucceeded(x: Execution, f: Forward)
    requires x.log.succeeded <= FORWARD_CHAIN && x.log.succeeded != FORWARD_CHAIN && f in x.log.succeeded
    ensures f != ScheduleShipment
  {
    assert x.log.succeeded == FORWARD_CHAIN[..|x.log.succeeded|];
  }

  /** No failure has been caught yet. */
  predicate GoingForward(x: Execution) {
    x.at == Succeeded || (x.at.At? && (x.at.state.InitializeSaga? || x.at.state.Run? || x.at.state.CompleteSaga?))
  }

  /** Nothing leads from the rollback back to the forward path. */
  lemma RollbackIsOneWay(x: Execution, e: Event)
    requires !GoingForward(x)
    ensures !GoingForward(Step(x, e))
  {
    if !Halted(x) && e.Attempt? {
      var s := x.at.state;
      var (after, reply) := Invoke(Definition(s).handler, x.doc, x.item, e.fault, e.suffix);
      if reply.Raised? { RaiseGoes(Attempted(x, s, after), s, reply.error); }
    }
  }

  lemma {:induction false} NothingGivenBack(x: Execution, events: seq<Event>, f: Forward, l: Ledger)
    requires GoingForward(x) ==> l.given == []
    ensures GoingForward(RunAll(x, events)) ==> LedgerOf(x, events, f, l).given == []
    decreases |events|
  {
    if events != [] {
      if !GoingForward(x) { RollbackIsOneWay(x, events[0]); }
      NothingGivenBack(Step(x, events[0]), events[1..], f, Post(x, events[0], f, l));
    }
  }

  /** No two attempts drew the same identifier. */
  ghost predicate Distinct(ids: seq<Detail>) {
    forall i, j :: 0 <= i < j < |ids| ==> ids[i] != ids[j]
  }

  /** Everything the attempts made has been given back. */
  predicate AllGivenBack(l: Ledger) {
    forall d :: d in l.made ==> d in l.given
  }

  lemma GivenBackIff(x: Execution, f: Forward, l: Ledger)
    requires Balanced(x, f, l) && Distinct(l.made)
    ensures AllGivenBack(l) <==> l.lost == 0 && (f in x.log.succeeded ==> l.given != [])
    ensures l.made == l.given <==> l.lost == 0 && |l.given| == if f in x.log.succeeded then 1 else 0
  {
    if l.made != [] {
      var last := l.made[|l.made| - 1];
      assert last in l.made && l.made[0] in l.made;
      if l.given != [] { assert l.given[0] in l.given; }
      if AllGivenBack(l) { assert l.made[0] == last; }
    }
  }

  /** For every input, item and run, wherever the run stands or has ended: compensations give back only
      what attempts of the step made, once per attempt that acted; and, identifiers being distinct,
      everything the attempts made has been given back if and only if no attempt of the step lost its
      reply after its handler had finished and, if the step succeeded, some attempt to undo it acted. At
      SagaFailed the latter always holds, and nothing is given back twice if and only if no compensation
      lost its reply. A completed saga made exactly one of each if and only if no reply was lost. */
  lemma NothingLeftBehindIff(doc: Doc, item: Option<Record>, events: seq<Event>, f: Forward)
    requires f != CreateOrder
    ensures var x := RunAll(Begin(doc, item), events);
            var l := LedgerOf(Begin(doc, item), events, f, BLANK);
            && (forall d :: d in l.given ==> d in l.made)
            && |l.given| == l.lostBack + (if WasUndone(x, f) then 1 else 0)
            && (Distinct(l.made) ==>
                  (AllGivenBack(l) <==>
                   l.lost == 0 && (f in x.log.succeeded ==> WasUndone(x, f) || l.lostBack > 0)))
            && (x.at == At(SagaFailed) && Distinct(l.made) ==>
                  && (AllGivenBack(l) <==> l.lost == 0)
                  && (l.made == l.given <==> l.lost == 0 && l.lostBack == 0))
            && (x.at == Succeeded ==> l.given == [] && (|l.made| == 1 <==> l.lost == 0))
  {
    var b := Begin(doc, item);
    assert Ordered(b) && Agreed(b) && Balanced(b, f, BLANK);
    RunPosts(b, events, f, BLANK);
    RunKeepsOrder(b, events);
    var x := RunAll(b, events);
    var l := LedgerOf(b, events, f, BLANK);
    if Distinct(l.made) { GivenBackIff(x, f, l); }
    if x.at == At(SagaFailed) { RolledBackIsUndone(x, f); }
    if x.at == Succeeded {
      assert FORWARD_CHAIN[Rank(f)] == f;
      NothingGivenBack(b, events, f, BLANK);
    }
  }

  /** And the order itself: for a fresh order id, a rolled-back saga leaves the order DONE in the table
      without having cancelled it if and only if create_order's last effective attempt lost its reply
      and the step never succeeded. */
  lemma OrderLeftBehindIff(doc: Doc, events: seq<Event>)
    ensures var x := RunAll(Begin(doc, None), events);
            x.at == At(SagaFailed) ==>
              ((EntryOf(x.item, Fwd(CreateOrder)).Some? && CancelOrder !in x.log.compensated) <==>
               (CreateOrder in Unacknowledged(Begin(doc, None), events, {}) && CreateOrder !in x.log.succeeded))
  {
    var b := Begin(doc, None);
    var x := RunAll(b, events);
    RunKeepsOrder(b, events);
    StoreAheadOfDocument(doc, events, CreateOrder);
    DocumentAgreesWithStore(doc, None, events, CreateOrder);
    if x.at == At(SagaFailed) { RolledBackIsUndone(x, CreateOrder); }
  }
}
