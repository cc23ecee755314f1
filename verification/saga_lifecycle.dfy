/** Runs of a fresh order: the life cycle of the stored status, and exactly when the store is
    ahead of the execution document. */
module SagaLifecycle {
  import opened StatesLanguage
  import opened SagaRecords
  import opened SagaHandlers
  import opened SagaMachine
  import opened SagaRollback
  import opened SagaAgreement

  /** The allowed moves of the stored status; COMPLETED and FAILED are final. */
  predicate Moves(a: Option<Status>, b: Option<Status>) {
    || a == b
    || (a == None && (b == Some(STARTED) || b == Some(FAILED)))
    || (a == Some(STARTED) && b != None)
    || (a == Some(COMPENSATING) && b == Some(FAILED))
  }

  ghost predicate StatusFits(x: Execution) {
    var st := StatusOf(x.item);
    match x.at
    case Succeeded => st == Some(COMPLETED)
    case Failed(_) => if x.log.succeeded == FORWARD_CHAIN then st == Some(STARTED) || st == Some(COMPLETED)
                      else st != Some(COMPLETED)
    case TimedOut => true
    case At(s) =>
      match s
      case InitializeSaga => st == None
      case Run(f) => st == Some(STARTED) || (st == None && f.CreateOrder?)
      case CompleteSaga => st == Some(STARTED) || st == Some(COMPLETED)
      case Undo(_) => st == Some(STARTED) || st == Some(COMPENSATING)
      case MarkFailed => st != Some(COMPLETED)
      case SagaFailed => st == Some(FAILED)
      case CompensationFailed => st == Some(STARTED) || st == Some(COMPENSATING)
  }

  /** Where a raised attempt leaves the execution. */
  lemma RaiseGoes(y: Execution, s: StateName, e: ErrorName)
    requires y.at == At(s) && Definition(s).TaskState?
    ensures var z := OnRaise(y, s, e);
            z.at == y.at ||
            match s
            case Run(f) => z.at == At(OnForwardFailure(f))
            case Undo(_) => z.at == At(CompensationFailed)
            case _ => z.at == Failed(e)
  {
    if s.Run? || s.Undo? { CatchAllTakesEverything(s, y.counters, e); }
  }

  lemma ForwardStatus(x: Execution, f: Forward, fault: Fault, suffix: string)
    requires Ordered(x) && Agreed(x) && StatusFits(x) && x.at == At(Run(f))
    ensures var y := RunTask(x, Run(f), fault, suffix);
            StatusFits(y) && Moves(StatusOf(x.item), StatusOf(y.item))
  {
    var (after, reply) := Invoke(Forwards(f), x.doc, x.item, fault, suffix);
    NotYetDone(x, f);
    if f.CreateOrder? { CreateEffect(x.doc, x.item, fault, suffix); }
    else { ForwardEffect(f, x.doc, x.item, fault, suffix); }
    var y := Attempted(x, Run(f), after);
    if reply.Raised? {
      RaiseLeavesResults(y, Run(f), reply.error);
      RaiseGoes(y, Run(f), reply.error);
    }
  }

  lemma UndoStatus(x: Execution, c: Compensation, fault: Fault, suffix: string)
    requires Ordered(x) && Agreed(x) && StatusFits(x) && x.at == At(Undo(c))
    ensures var y := RunTask(x, Undo(c), fault, suffix);
            StatusFits(y) && Moves(StatusOf(x.item), StatusOf(y.item))
  {
    var (after, reply) := Invoke(Undoes(c), x.doc, x.item, fault, suffix);
    UndoneSucceeded(x, c);
    UndoEffect(c, x.doc, x.item, fault, suffix);
    var y := Attempted(x, Undo(c), after);
    if reply.Raised? {
      RaiseLeavesResults(y, Undo(c), reply.error);
      RaiseGoes(y, Undo(c), reply.error);
    }
  }

  lemma MovesToFailed(a: Option<Status>)
    requires a != Some(COMPLETED)
    ensures Moves(a, Some(FAILED))
  {
    if a.Some? {
      match a.value
      case STARTED =>
      case COMPLETED =>
      case FAILED =>
      case COMPENSATING =>
    }
  }

  lemma MarkStatus(x: Execution, s: StateName, fault: Fault, suffix: string)
    requires Ordered(x) && StatusFits(x) && x.at == At(s) && (s.CompleteSaga? || s.MarkFailed?)
    ensures var y := RunTask(x, s, fault, suffix);
            StatusFits(y) && Moves(StatusOf(x.item), StatusOf(y.item))
  {
    var h := Definition(s).handler;
    var (after, reply) := Invoke(h, x.doc, x.item, fault, suffix);
    MarkEffect(h, x.doc, x.item, fault, suffix);
    if s.MarkFailed? { MovesToFailed(StatusOf(x.item)); }
    var y := Attempted(x, s, after);
    if reply.Raised? {
      RaiseLeavesResults(y, s, reply.error);
      RaiseGoes(y, s, reply.error);
    }
  }

  ghost predicate Fresh(x: Execution) {
    Ordered(x) && Agreed(x) && StatusFits(x)
  }

  lemma StepStaysFresh(x: Execution, e: Event)
    requires Fresh(x)
    ensures Fresh(Step(x, e)) && Moves(StatusOf(x.item), StatusOf(Step(x, e).item))
  {
    StepKeepsOrder(x, e);
    StepKeepsAgreement(x, e);
    if !Halted(x) && e.Attempt? {
      match x.at.state
      case Run(f) => ForwardStatus(x, f, e.fault, e.suffix);
      case Undo(c) => UndoStatus(x, c, e.fault, e.suffix);
      case CompleteSaga => MarkStatus(x, CompleteSaga, e.fault, e.suffix);
      case MarkFailed => MarkStatus(x, MarkFailed, e.fault, e.suffix);
      case _ =>
    }
  }

  lemma {:induction false} RunStaysFresh(x: Execution, events: seq<Event>)
    requires Fresh(x)
    ensures Fresh(RunAll(x, events))
    decreases |events|
  {
    if events != [] {
      StepStaysFresh(x, events[0]);
      RunStaysFresh(Step(x, events[0]), events[1..]);
    }
  }

  /** For an order id the table has not seen: after any run, the next event moves the status only
      along the life cycle; and the way an execution ended tells what is stored. An execution that
      failed in CompleteSaga leaves STARTED, or COMPLETED when only the reply was lost; one that
      failed in MarkFailed never leaves COMPLETED. */
  lemma StatusLifecycle(doc: Doc, events: seq<Event>, e: Event)
    ensures var x := RunAll(Begin(doc, None), events);
            && Moves(StatusOf(x.item), StatusOf(Step(x, e).item))
            && (x.at == Succeeded ==>
                  StatusOf(x.item) == Some(COMPLETED) &&
                  forall f :: EntryOf(x.item, Fwd(f)).Some? && EntryOf(x.item, Fwd(f)).value.mark == DONE)
            && (x.at == At(SagaFailed) ==> StatusOf(x.item) == Some(FAILED))
            && (x.at == At(CompensationFailed) ==>
                  StatusOf(x.item) == Some(STARTED) || StatusOf(x.item) == Some(COMPENSATING))
            && (x.at.Failed? && x.log.succeeded == FORWARD_CHAIN ==>
                  StatusOf(x.item) == Some(STARTED) || StatusOf(x.item) == Some(COMPLETED))
            && (x.at.Failed? && x.log.succeeded != FORWARD_CHAIN ==> StatusOf(x.item) != Some(COMPLETED))
  {
    var x := RunAll(Begin(doc, None), events);
    assert Fresh(Begin(doc, None));
    RunStaysFresh(Begin(doc, None), events);
    StepStaysFresh(x, e);
    if x.at == Succeeded {
      forall f
        ensures EntryOf(x.item, Fwd(f)).Some? && EntryOf(x.item, Fwd(f)).value.mark == DONE
      {
        assert FORWARD_CHAIN[Rank(f)] == f;
        assert Settled(x, f);
      }
    }
  }

  // ------------------------------------------------ when the store is ahead of the document

  /** The forward steps whose latest effective attempt reached `record_step` but lost its reply:
      a later success of the step, or a later `start`, takes it off the list. */
  function Unacknowledged(x: Execution, events: seq<Event>, lost: set<Forward>): set<Forward>
    decreases |events|
  {
    if events == [] then lost
    else Unacknowledged(Step(x, events[0]), events[1..], LostAfter(x, events[0], lost))
  }

  function LostAfter(x: Execution, e: Event, lost: set<Forward>): set<Forward> {
    if !x.at.At? || !x.at.state.Run? || e.ExecutionTimeout? then lost
    else
      var f := x.at.state.f;
      if LosesReply(Forwards(f), x.doc, x.item, e.fault, e.suffix) then lost + {f}
      else if Invoke(Forwards(f), x.doc, x.item, e.fault, e.suffix).1.Returned? then lost - {f}
      else if f.CreateOrder? && Restarts(x.doc, e.fault) then lost - {f}
      else lost
  }

  ghost predicate Tracks(x: Execution, lost: set<Forward>) {
    forall f :: f !in x.log.succeeded ==> (EntryOf(x.item, Fwd(f)).Some? <==> f in lost)
  }

  lemma ForwardTracks(x: Execution, f: Forward, e: Event, lost: set<Forward>)
    requires Ordered(x) && Agreed(x) && Tracks(x, lost) && x.at == At(Run(f)) && e.Attempt?
    requires f.CreateOrder? ==> lost <= {CreateOrder}
    ensures Tracks(Step(x, e), LostAfter(x, e, lost))
  {
    var (after, reply) := Invoke(Forwards(f), x.doc, x.item, e.fault, e.suffix);
    NotYetDone(x, f);
    if f.CreateOrder? {
      CreateEffect(x.doc, x.item, e.fault, e.suffix);
    } else {
      ForwardEffect(f, x.doc, x.item, e.fault, e.suffix);
    }
    if reply.Raised? {
      RaiseLeavesResults(Attempted(x, Run(f), after), Run(f), reply.error);
    }
  }

  lemma StepTracks(x: Execution, e: Event, lost: set<Forward>)
    requires Fresh(x) && Tracks(x, lost)
    requires x.log.succeeded == [] ==> lost <= {CreateOrder}
    ensures Tracks(Step(x, e), LostAfter(x, e, lost))
    ensures Step(x, e).log.succeeded == [] ==> LostAfter(x, e, lost) <= {CreateOrder}
  {
    if !Halted(x) && e.Attempt? {
      match x.at.state
      case Run(f) =>
        NotYetDone(x, f);
        ForwardTracks(x, f, e, lost);
      case Undo(c) =>
        UndoTracks(x, c, e, lost);
      case CompleteSaga =>
        MarkTracks(x, CompleteSaga, e, lost);
      case MarkFailed =>
        MarkTracks(x, MarkFailed, e, lost);
      case _ =>
    }
  }

  lemma UndoTracks(x: Execution, c: Compensation, e: Event, lost: set<Forward>)
    requires Ordered(x) && Agreed(x) && Tracks(x, lost) && x.at == At(Undo(c)) && e.Attempt?
    ensures Tracks(Step(x, e), lost) && Step(x, e).log.succeeded == x.log.succeeded
  {
    var (after, reply) := Invoke(Undoes(c), x.doc, x.item, e.fault, e.suffix);
    UndoneSucceeded(x, c);
    UndoEffect(c, x.doc, x.item, e.fault, e.suffix);
    if reply.Raised? { RaiseLeavesResults(Attempted(x, Undo(c), after), Undo(c), reply.error); }
  }

  lemma MarkTracks(x: Execution, s: StateName, e: Event, lost: set<Forward>)
    requires Tracks(x, lost) && x.at == At(s) && (s.CompleteSaga? || s.MarkFailed?) && e.Attempt?
    ensures Tracks(Step(x, e), lost) && Step(x, e).log.succeeded == x.log.succeeded
  {
    var h := Definition(s).handler;
    var (after, reply) := Invoke(h, x.doc, x.item, e.fault, e.suffix);
    MarkEffect(h, x.doc, x.item, e.fault, e.suffix);
    if reply.Raised? { RaiseLeavesResults(Attempted(x, s, after), s, reply.error); }
  }

  lemma {:induction false} RunTracks(x: Execution, events: seq<Event>, lost: set<Forward>)
    requires Fresh(x) && Tracks(x, lost)
    requires x.log.succeeded == [] ==> lost <= {CreateOrder}
    ensures Tracks(RunAll(x, events), Unacknowledged(x, events, lost))
    decreases |events|
  {
    if events != [] {
      StepStaysFresh(x, events[0]);
      StepTracks(x, events[0], lost);
      RunTracks(Step(x, events[0]), events[1..], LostAfter(x, events[0], lost));
    }
  }

  /** The converse of DocumentAgreesWithStore, exactly: for a fresh order, a forward step the store
      calls DONE is missing from the document if and only if it has not succeeded and is on the
      list of unacknowledged steps. */
  lemma StoreAheadOfDocument(doc: Doc, events: seq<Event>, f: Forward)
    ensures var x := RunAll(Begin(doc, None), events);
            Seeded(x) ==>
              ((EntryOf(x.item, Fwd(f)).Some? && ResultOf(f) !in x.doc.results) <==>
               (f in Unacknowledged(Begin(doc, None), events, {}) && f !in x.log.succeeded))
  {
    var b := Begin(doc, None);
    assert Fresh(b) && Tracks(b, {});
    RunTracks(b, events, {});
    RunStaysFresh(b, events);
  }

  /** No attempt of the run lost a reply after its handler had returned. */
  predicate EveryReplyArrives(x: Execution, events: seq<Event>)
    decreases |events|
  {
    events == [] ||
    (&& (x.at.At? && x.at.state.Run? && events[0].Attempt? ==>
           !LosesReply(Forwards(x.at.state.f), x.doc, x.item, events[0].fault, events[0].suffix))
     && EveryReplyArrives(Step(x, events[0]), events[1..]))
  }

  lemma {:induction false} NothingUnacknowledged(x: Execution, events: seq<Event>)
    requires EveryReplyArrives(x, events)
    ensures Unacknowledged(x, events, {}) == {}
    decreases |events|
  {
    if events != [] {
      assert LostAfter(x, events[0], {}) == {};
      NothingUnacknowledged(Step(x, events[0]), events[1..]);
    }
  }

  /** When every failure is raised before a handler returns, store and document name the same steps. */
  lemma StoreAgreesWithDocument(doc: Doc, events: seq<Event>, f: Forward)
    requires EveryReplyArrives(Begin(doc, None), events)
    ensures var x := RunAll(Begin(doc, None), events);
            Seeded(x) ==> (EntryOf(x.item, Fwd(f)).Some? <==> ResultOf(f) in x.doc.results)
  {
    NothingUnacknowledged(Begin(doc, None), events);
    StoreAheadOfDocument(doc, events, f);
    DocumentAgreesWithStore(doc, None, events, f);
  }
}
