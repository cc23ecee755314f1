/** A rejection end to end: from the click, through the cause that SendTaskFailure carries, to what
    HandleRejection reports and what the request table says. */
module ApprovalRejection {
  import opened StatesLanguage
  import opened ApprovalRecords
  import opened ApprovalProtocol
  import opened RejectionCause

  /** The `cause` argument of SendTaskFailure, before it is cut. */
  function CauseOf(c: Click): Text {
    Dumps(Codes(c.approver), Codes(c.at), Codes(c.comment))
  }

  /** The cause of a click with plain texts: approver, clock reading and comment, in this order. */
  lemma CauseText(c: Click)
    requires Plain(Codes(c.approver)) && Plain(Codes(c.at)) && Plain(Codes(c.comment))
    ensures CauseOf(c) ==
              [0x7B] + PlainLine("rejected_by", Codes(c.approver),
                [0x2C, 0x20] + PlainLine("decided_at", Codes(c.at),
                  [0x2C, 0x20] + PlainLine("comment", Codes(c.comment), [0x7D])))
  {
    PlainCause(Codes(c.approver), Codes(c.at), Codes(c.comment));
  }

  /** Text made of characters has no surrogates to join. */
  lemma CharactersStay(s: string)
    ensures Joined(Codes(s)) == Codes(s)
  {
    CodesAreChars(s);
    forall i | 0 <= i < |Codes(s)| - 1
      ensures !(IsHigh(Codes(s)[i]) && IsLow(Codes(s)[i + 1]))
    {
      assert Codes(s)[i] == s[i] as int;
    }
    JoinedIsIdentityIff(Codes(s));
  }

  /** In every interleaving, when the table says REJECTED the execution is in HandleRejection, and
      on_rejected reports the very approver and comment stored in the table, as long as the cause
      fits; when it was cut, it reports the cut cause and no approver. */
  lemma RejectionReport(actions: seq<Action>)
    ensures var s := RunAll(START, actions);
            s.item.Some? && s.item.value.status.REJECTED? ==>
              && s.gate.ResumedBy? && s.gate.outcome.TaskFailure?
              && NextState(s.gate) == Some(HandleRejection)
              && s.item.value.approver.Some? && s.item.value.comment.Some?
              && var cause := CauseOf(s.gate.outcome.click);
                 OnRejected(Cut(cause)) ==
                   if |cause| <= CAUSE_LIMIT then
                     (Some(Codes(s.item.value.approver.value)), Some(Codes(s.item.value.comment.value)))
                   else (None, Some(cause[..CAUSE_LIMIT]))
  {
    DecisionAgreement(actions);
    var s := RunAll(START, actions);
    if s.item.Some? && s.item.value.status.REJECTED? {
      var c := s.calls[s.gate.call].click;
      CharactersStay(c.approver);
      CharactersStay(c.comment);
      CauseRoundTrip(Codes(c.approver), Codes(c.at), Codes(c.comment));
    }
  }
}
