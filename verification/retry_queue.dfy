/** The work queue with its event source mapping and redrive policy, over any interleaving of
    deliveries, handler calls, batch responses and Lambda crashes. */
module RetryQueue {
  import opened Integers
  import opened RetryBackoff

  /** max_receive_count, BACKOFF_BASE_SECONDS, BACKOFF_MAX_SECONDS. */
  datatype Config = Config(maxReceives: nat, base: int, cap: int)

  /** What the current delivery of an in-flight message has come to. */
  datatype Verdict = Unhandled | Succeeded | Reported

  /** History of a message: receives, process_record calls, whether one returned normally, and the
      sum of the backoff delays chosen for it. */
  datatype Info = Info(parseable: bool, receives: nat, processed: nat, returned: bool, delay: int)

  datatype Queue = Queue(sent: nat, queued: set<nat>, inflight: map<nat, Verdict>, acked: set<nat>, dlq: set<nat>,
                         info: map<nat, Info>)

  const EMPTY := Queue(0, {}, map[], {}, {}, map[])

  datatype Action =
    | Send(parseable: bool)
    | Receive(ids: set<nat>)
    | Process(id: nat, raises: bool, draw: real)
    | Respond(ids: set<nat>)
    | Crash(ids: set<nat>)

  /** Deliverable messages among `ids`, and those that redrive moves to the dead-letter queue. */
  function Live(cfg: Config, q: Queue, ids: set<nat>): set<nat> {
    set i | i in ids && i in q.queued && i in q.info && q.info[i].receives < cfg.maxReceives
  }

  function Spent(cfg: Config, q: Queue, ids: set<nat>): set<nat> {
    set i | i in ids && i in q.queued && i in q.info && q.info[i].receives >= cfg.maxReceives
  }

  function ReceiveStep(cfg: Config, q: Queue, ids: set<nat>): Queue {
    var live, spent := Live(cfg, q, ids), Spent(cfg, q, ids);
    q.(queued := q.queued - live - spent,
       inflight := q.inflight + (map i | i in live :: Unhandled),
       dlq := q.dlq + spent,
       info := map i | i in q.info :: if i in live then q.info[i].(receives := q.info[i].receives + 1) else q.info[i])
  }

  /** The handler's treatment of one record: parse, process, back off. */
  function Handled(cfg: Config, m: Info, raises: bool, draw: real): Info {
    if !m.parseable then m
    else if raises then
      m.(processed := m.processed + 1, delay := m.delay + Delay(m.receives, cfg.base, cfg.cap, draw))
    else m.(processed := m.processed + 1, returned := true)
  }

  function ProcessStep(cfg: Config, q: Queue, id: nat, raises: bool, draw: real): Queue {
    if id in q.inflight && q.inflight[id].Unhandled? && id in q.info && 0.0 <= draw <= 1.0 then
      var d := Delivery(id, q.info[id].receives, q.info[id].parseable, raises, draw);
      q.(inflight := q.inflight[id := if Failing(d) then Reported else Succeeded],
         info := q.info[id := Handled(cfg, q.info[id], raises, draw)])
    else q
  }

  /** The partial-batch response: reported messages go back, the others are deleted. */
  function Answered(q: Queue, ids: set<nat>, v: Verdict): set<nat> {
    set i | i in ids && i in q.inflight && q.inflight[i] == v
  }

  function RespondStep(q: Queue, ids: set<nat>): Queue {
    var back, done := Answered(q, ids, Reported), Answered(q, ids, Succeeded);
    q.(queued := q.queued + back, acked := q.acked + done, inflight := q.inflight - back - done)
  }

  /** Without a response the whole batch becomes visible again. */
  function CrashStep(q: Queue, ids: set<nat>): Queue {
    var back := set i | i in ids && i in q.inflight;
    q.(queued := q.queued + back, inflight := q.inflight - back)
  }

  function Step(cfg: Config, q: Queue, a: Action): Queue {
    match a
    case Send(parseable) =>
      q.(sent := q.sent + 1, queued := q.queued + {q.sent}, info := q.info[q.sent := Info(parseable, 0, 0, false, 0)])
    case Receive(ids) => ReceiveStep(cfg, q, ids)
    case Process(id, raises, draw) => ProcessStep(cfg, q, id, raises, draw)
    case Respond(ids) => RespondStep(q, ids)
    case Crash(ids) => CrashStep(q, ids)
  }

  function RunAll(cfg: Config, q: Queue, actions: seq<Action>): Queue
    decreases |actions|
  {
    if actions == [] then q else RunAll(cfg, Step(cfg, q, actions[0]), actions[1..])
  }

  // ------------------------------------------------ conservation

  /** Every message sent is in exactly one place. */
  ghost predicate Conserved(q: Queue) {
    && (forall i: nat :: i in q.info <==> i < q.sent)
    && (forall i: nat :: i in q.info <==> i in q.queued || i in q.inflight || i in q.acked || i in q.dlq)
    && q.queued !! q.inflight.Keys !! q.acked !! q.dlq
  }

  /** What the history of a message says about where it is. */
  ghost predicate Accounted(cfg: Config, q: Queue, i: nat)
    requires i in q.info
  {
    var m := q.info[i];
    && m.processed <= m.receives <= cfg.maxReceives
    && 0 <= m.delay <= CeilingSum(cfg.base, cfg.cap, m.receives)
    && (!m.parseable ==> m.processed == 0 && !m.returned)
    && (i in q.acked ==> m.returned)
    && (i in q.dlq ==> m.receives == cfg.maxReceives)
    && (i in q.inflight ==> m.receives >= 1)
    && (i in q.inflight && q.inflight[i].Succeeded? ==> m.returned)
    && (i in q.inflight && q.inflight[i].Unhandled? ==>
          m.processed < m.receives && m.delay <= CeilingSum(cfg.base, cfg.cap, m.receives - 1))
  }

  ghost predicate Inv(cfg: Config, q: Queue) {
    Conserved(q) && forall i :: i in q.info ==> Accounted(cfg, q, i)
  }

  lemma ReceiveConserves(cfg: Config, q: Queue, ids: set<nat>)
    requires Conserved(q)
    ensures Conserved(ReceiveStep(cfg, q, ids))
  {
    var t := ReceiveStep(cfg, q, ids);
    assert t.inflight.Keys == q.inflight.Keys + Live(cfg, q, ids);
  }

  lemma ReceiveAccountsFor(cfg: Config, q: Queue, ids: set<nat>, i: nat)
    requires Conserved(q) && i in q.info && Accounted(cfg, q, i)
    ensures Accounted(cfg, ReceiveStep(cfg, q, ids), i)
  {
    if i in Live(cfg, q, ids) {
      assert i in q.queued && i !in q.inflight;
    }
  }

  lemma ReceiveAccounts(cfg: Config, q: Queue, ids: set<nat>)
    requires Inv(cfg, q)
    ensures Inv(cfg, ReceiveStep(cfg, q, ids))
  {
    ReceiveConserves(cfg, q, ids);
    forall i | i in q.info ensures Accounted(cfg, ReceiveStep(cfg, q, ids), i) {
      ReceiveAccountsFor(cfg, q, ids, i);
    }
  }

  lemma ProcessAccounts(cfg: Config, q: Queue, id: nat, raises: bool, draw: real)
    requires Inv(cfg, q)
    ensures Inv(cfg, ProcessStep(cfg, q, id, raises, draw))
  {
    var t := ProcessStep(cfg, q, id, raises, draw);
    if t != q {
      assert t.inflight.Keys == q.inflight.Keys && t.info.Keys == q.info.Keys;
      forall i | i in t.info ensures Accounted(cfg, t, i) {
        assert Accounted(cfg, q, i);
        if i == id { JitterWithinCeiling(Ceiling(q.info[i].receives, cfg.base, cfg.cap), draw); }
      }
    }
  }

  lemma RespondAccounts(cfg: Config, q: Queue, ids: set<nat>)
    requires Inv(cfg, q)
    ensures Inv(cfg, RespondStep(q, ids))
  {
    var t := RespondStep(q, ids);
    forall i | i in t.info ensures Accounted(cfg, t, i) {
      assert Accounted(cfg, q, i);
    }
  }

  lemma CrashAccounts(cfg: Config, q: Queue, ids: set<nat>)
    requires Inv(cfg, q)
    ensures Inv(cfg, CrashStep(q, ids))
  {
    var t := CrashStep(q, ids);
    forall i | i in t.info ensures Accounted(cfg, t, i) {
      assert Accounted(cfg, q, i);
    }
  }

  lemma SendAccounts(cfg: Config, q: Queue, parseable: bool)
    requires Inv(cfg, q)
    ensures Inv(cfg, Step(cfg, q, Send(parseable)))
  {
    var t := Step(cfg, q, Send(parseable));
    forall i | i in t.info ensures Accounted(cfg, t, i) {
      if i != q.sent { assert Accounted(cfg, q, i); }
    }
  }

  lemma StepKeeps(cfg: Config, q: Queue, a: Action)
    requires Inv(cfg, q)
    ensures Inv(cfg, Step(cfg, q, a))
  {
    match a
    case Send(parseable) => SendAccounts(cfg, q, parseable);
    case Receive(ids) => ReceiveAccounts(cfg, q, ids);
    case Process(id, raises, draw) => ProcessAccounts(cfg, q, id, raises, draw);
    case Respond(ids) => RespondAccounts(cfg, q, ids);
    case Crash(ids) => CrashAccounts(cfg, q, ids);
  }

  lemma {:induction false} RunKeeps(cfg: Config, q: Queue, actions: seq<Action>)
    requires Inv(cfg, q)
    ensures Inv(cfg, RunAll(cfg, q, actions))
    decreases |actions|
  {
    if actions != [] {
      StepKeeps(cfg, q, actions[0]);
      RunKeeps(cfg, Step(cfg, q, actions[0]), actions[1..]);
    }
  }

  /** In every run each message sent is in exactly one of queue, in flight, acknowledged and
      dead-letter queue; it is acknowledged only after process_record returned normally for it,
      which never happens for an unparseable body; it is processed at most maxReceives times; it is
      dead-lettered only after all its receives; and its backoff delays sum to at most the sum of
      the ceilings of its attempts. */
  lemma QueueConservation(cfg: Config, actions: seq<Action>, i: nat)
    ensures var q := RunAll(cfg, EMPTY, actions);
            && q.queued !! q.inflight.Keys !! q.acked !! q.dlq
            && (i < q.sent <==> i in q.queued || i in q.inflight || i in q.acked || i in q.dlq)
            && (i in q.acked ==> i in q.info && q.info[i].returned && q.info[i].parseable)
            && (i in q.dlq ==> i in q.info && q.info[i].receives == cfg.maxReceives)
            && (i in q.info ==>
                  q.info[i].processed <= cfg.maxReceives &&
                  0 <= q.info[i].delay <= CeilingSum(cfg.base, cfg.cap, q.info[i].receives))
  {
    RunKeeps(cfg, EMPTY, actions);
    var q := RunAll(cfg, EMPTY, actions);
    if i in q.info { assert Accounted(cfg, q, i); }
  }

  // ------------------------------------------------ the handler's answer decides

  function Ids(batch: seq<Delivery>): set<nat> {
    set d | d in batch :: d.id
  }

  /** One event: distinct messages, in flight and not yet handled, with their current receive count. */
  ghost predicate Delivered(q: Queue, batch: seq<Delivery>) {
    && (forall k :: 0 <= k < |batch| ==>
          var d := batch[k];
          d.id in q.inflight && q.inflight[d.id].Unhandled? && d.id in q.info &&
          q.info[d.id].receives == d.receives && q.info[d.id].parseable == d.parseable && 0.0 <= d.draw <= 1.0)
    && (forall j, k :: 0 <= j < k < |batch| ==> batch[j].id != batch[k].id)
  }

  /** The handler works through its event. */
  function Worked(cfg: Config, q: Queue, batch: seq<Delivery>): Queue {
    if batch == [] then q
    else
      var d := batch[|batch| - 1];
      ProcessStep(cfg, Worked(cfg, q, batch[..|batch| - 1]), d.id, d.raises, d.draw)
  }

  /** What working through the batch means for one message of it, or for one outside. */
  lemma {:induction false} WorkedOne(cfg: Config, q: Queue, batch: seq<Delivery>, i: nat)
    requires Delivered(q, batch) && i in q.inflight && i in q.info
    ensures var t := Worked(cfg, q, batch);
            && t.queued == q.queued && t.acked == q.acked && t.dlq == q.dlq && t.inflight.Keys == q.inflight.Keys
            && i in t.info && (i !in Ids(batch) ==> t.inflight[i] == q.inflight[i] && t.info[i] == q.info[i])
            && (i in Ids(batch) ==> t.inflight[i] == if i in FailureIds(batch) then Reported else Succeeded)
  {
    if batch != [] {
      var init := batch[..|batch| - 1];
      var d := batch[|batch| - 1];
      DeliveredSplit(q, batch);
      WorkedOne(cfg, q, init, i);
      WorkedOne(cfg, q, init, d.id);
      LastRecord(batch, i);
    }
  }

  lemma DeliveredSplit(q: Queue, batch: seq<Delivery>)
    requires Delivered(q, batch) && batch != []
    ensures var d := batch[|batch| - 1];
            && Delivered(q, batch[..|batch| - 1])
            && d.id in q.inflight && q.inflight[d.id].Unhandled? && d.id in q.info
            && q.info[d.id].receives == d.receives && q.info[d.id].parseable == d.parseable && 0.0 <= d.draw <= 1.0
            && d.id !in Ids(batch[..|batch| - 1])
  {
  }

  /** The last record of a batch, and the others. */
  lemma LastRecord(batch: seq<Delivery>, i: nat)
    requires batch != []
    ensures var init := batch[..|batch| - 1];
            var d := batch[|batch| - 1];
            && (i in Ids(batch) <==> i in Ids(init) || i == d.id)
            && (i in FailureIds(batch) <==> i in FailureIds(init) || (Failing(d) && i == d.id))
            && (i in FailureIds(init) ==> i in Ids(init))
  {
    var init := batch[..|batch| - 1];
    assert batch == init + [batch[|batch| - 1]];
    FailuresAreInBatch(init, i);
  }

  lemma {:induction false} FailuresAreInBatch(batch: seq<Delivery>, i: nat)
    ensures i in FailureIds(batch) ==> i in Ids(batch)
  {
    if batch != [] { FailuresAreInBatch(batch[..|batch| - 1], i); }
  }

  /** The list `handle` returns settles the batch: a message it names is back on the queue, every
      other message of the batch is acknowledged, and no message outside the batch moves. */
  lemma AnswerDecidesFate(cfg: Config, q: Queue, batch: seq<Delivery>, k: nat, i: nat)
    requires Inv(cfg, q) && Delivered(q, batch) && k < |batch| && i !in Ids(batch)
    ensures var t := RespondStep(Worked(cfg, q, batch), Ids(batch));
            && (batch[k].id in FailureIds(batch) <==> batch[k].id in t.queued)
            && (batch[k].id !in FailureIds(batch) <==> batch[k].id in t.acked)
            && batch[k].id !in t.inflight && batch[k].id !in t.dlq
            && (i in t.queued <==> i in q.queued) && (i in t.acked <==> i in q.acked)
            && (i in t.inflight <==> i in q.inflight) && (i in t.dlq <==> i in q.dlq)
  {
    WorkedOne(cfg, q, batch, batch[k].id);
    assert batch[k] in batch;
    if i in q.inflight { WorkedOne(cfg, q, batch, i); }
  }

  // ------------------------------------------------ what the history of a message records

  /** What happened to message `i` in a run, counted from the actions. */
  datatype Tally = Tally(receives: nat, processed: nat, returned: bool, delay: int)

  predicate Delivers(cfg: Config, q: Queue, a: Action, i: nat) {
    a.Receive? && i in a.ids && i in q.queued && i in q.info && q.info[i].receives < cfg.maxReceives
  }

  predicate Processes(q: Queue, a: Action, i: nat) {
    a.Process? && a.id == i && i in q.inflight && q.inflight[i].Unhandled? && i in q.info && q.info[i].parseable &&
    0.0 <= a.draw <= 1.0
  }

  function Counted(cfg: Config, q: Queue, a: Action, i: nat, t: Tally): Tally {
    if Delivers(cfg, q, a, i) then t.(receives := t.receives + 1)
    else if Processes(q, a, i) && a.raises then
      t.(processed := t.processed + 1, delay := t.delay + Delay(q.info[i].receives, cfg.base, cfg.cap, a.draw))
    else if Processes(q, a, i) then t.(processed := t.processed + 1, returned := true)
    else t
  }

  function TallyOf(cfg: Config, q: Queue, actions: seq<Action>, i: nat, t: Tally): Tally
    decreases |actions|
  {
    if actions == [] then t
    else TallyOf(cfg, Step(cfg, q, actions[0]), actions[1..], i, Counted(cfg, q, actions[0], i, t))
  }

  ghost predicate Tallied(q: Queue, i: nat, t: Tally) {
    if i in q.info then
      var m := q.info[i];
      t == Tally(m.receives, m.processed, m.returned, m.delay)
    else t == Tally(0, 0, false, 0)
  }

  lemma StepTallied(cfg: Config, q: Queue, a: Action, i: nat, t: Tally)
    requires Conserved(q) && Tallied(q, i, t)
    ensures Tallied(Step(cfg, q, a), i, Counted(cfg, q, a, i, t))
  {
  }

  lemma {:induction false} RunTallied(cfg: Config, q: Queue, actions: seq<Action>, i: nat, t: Tally)
    requires Inv(cfg, q) && Tallied(q, i, t)
    ensures Tallied(RunAll(cfg, q, actions), i, TallyOf(cfg, q, actions, i, t))
    decreases |actions|
  {
    if actions != [] {
      StepTallied(cfg, q, actions[0], i, t);
      StepKeeps(cfg, q, actions[0]);
      RunTallied(cfg, Step(cfg, q, actions[0]), actions[1..], i, Counted(cfg, q, actions[0], i, t));
    }
  }

  /** Conservation by the actions themselves: an acknowledged message was processed by a call that
      returned normally, a dead-lettered one was delivered exactly maxReceives times, and no message is
      processed more often than it was delivered, which is at most maxReceives times. */
  lemma FateIsEarned(cfg: Config, actions: seq<Action>, i: nat)
    ensures var q := RunAll(cfg, EMPTY, actions);
            var t := TallyOf(cfg, EMPTY, actions, i, Tally(0, 0, false, 0));
            && (i in q.acked ==> t.returned)
            && (i in q.dlq ==> t.receives == cfg.maxReceives)
            && t.processed <= t.receives <= cfg.maxReceives
            && 0 <= t.delay <= CeilingSum(cfg.base, cfg.cap, t.receives)
  {
    RunKeeps(cfg, EMPTY, actions);
    RunTallied(cfg, EMPTY, actions, i, Tally(0, 0, false, 0));
    var q := RunAll(cfg, EMPTY, actions);
    if i in q.info { assert Accounted(cfg, q, i); }
  }

  /** Where a delivery and an unanswered batch send a message. */
  lemma MessageMoves(cfg: Config, q: Queue, ids: set<nat>, i: nat)
    requires Inv(cfg, q) && i in ids
    ensures i in q.queued ==>
              var t := Step(cfg, q, Receive(ids));
              if q.info[i].receives < cfg.maxReceives then
                i in t.inflight && t.inflight[i] == Unhandled && i !in t.queued
              else i in t.dlq && i !in t.queued
    ensures i in q.inflight ==>
              var t := Step(cfg, q, Crash(ids));
              i in t.queued && i !in t.inflight && i !in t.acked && t.info == q.info
  {
  }

  // ------------------------------------------------ every message meets its fate

  /** Deliveries and answers a message can still cause. */
  function Weight(cfg: Config, q: Queue, i: nat): nat {
    if i in q.queued && i in q.info then 1 + 2 * Max(0, cfg.maxReceives - q.info[i].receives)
    else if i in q.inflight && i in q.info then 2 + 2 * Max(0, cfg.maxReceives - q.info[i].receives)
    else 0
  }

  function TotalWeight(cfg: Config, q: Queue, n: nat): nat {
    if n == 0 then 0 else TotalWeight(cfg, q, n - 1) + Weight(cfg, q, n - 1)
  }

  /** The action delivers a message or answers for one. */
  predicate Effective(cfg: Config, q: Queue, a: Action) {
    match a
    case Receive(ids) => Live(cfg, q, ids) + Spent(cfg, q, ids) != {}
    case Respond(ids) => Answered(q, ids, Reported) + Answered(q, ids, Succeeded) != {}
    case Crash(ids) => exists i :: i in ids && i in q.inflight
    case _ => false
  }

  /** Nothing is waiting or in flight. */
  predicate Drained(q: Queue) {
    q.queued == {} && q.inflight == map[]
  }

  /** How many actions move a message on, or come when there is none left to move. */
  function Progress(cfg: Config, q: Queue, actions: seq<Action>): nat
    decreases |actions|
  {
    if actions == [] then 0
    else
      (if Drained(q) || Effective(cfg, q, actions[0]) then 1 else 0) +
      Progress(cfg, Step(cfg, q, actions[0]), actions[1..])
  }

  lemma {:induction false} WeightsSum(cfg: Config, q: Queue, t: Queue, n: nat)
    requires forall i :: 0 <= i < n ==> Weight(cfg, t, i) <= Weight(cfg, q, i)
    ensures TotalWeight(cfg, t, n) <= TotalWeight(cfg, q, n)
    ensures (exists i :: 0 <= i < n && Weight(cfg, t, i) < Weight(cfg, q, i)) ==>
              TotalWeight(cfg, t, n) < TotalWeight(cfg, q, n)
  {
    if n > 0 { WeightsSum(cfg, q, t, n - 1); }
  }

  /** No step but a new message adds weight, and effective ones take some away. */
  lemma StepLosesWeight(cfg: Config, q: Queue, a: Action)
    requires Inv(cfg, q) && !a.Send?
    ensures var t := Step(cfg, q, a);
            && t.sent == q.sent
            && TotalWeight(cfg, t, q.sent) <= TotalWeight(cfg, q, q.sent)
            && (Effective(cfg, q, a) ==> TotalWeight(cfg, t, q.sent) < TotalWeight(cfg, q, q.sent))
  {
    var t := Step(cfg, q, a);
    forall i | 0 <= i < q.sent
      ensures Weight(cfg, t, i) <= Weight(cfg, q, i)
      ensures Moved(cfg, q, a, i) ==> Weight(cfg, t, i) < Weight(cfg, q, i)
    {
      WeightOfOne(cfg, q, a, i);
    }
    WeightsSum(cfg, q, t, q.sent);
    if Effective(cfg, q, a) {
      var i := WhichMoved(cfg, q, a);
    }
  }

  /** The message is delivered, dead-lettered or answered for by this action. */
  predicate Moved(cfg: Config, q: Queue, a: Action, i: nat) {
    match a
    case Receive(ids) => i in Live(cfg, q, ids) || i in Spent(cfg, q, ids)
    case Respond(ids) => i in Answered(q, ids, Reported) || i in Answered(q, ids, Succeeded)
    case Crash(ids) => i in ids && i in q.inflight
    case _ => false
  }

  lemma WhichMoved(cfg: Config, q: Queue, a: Action) returns (i: nat)
    requires Inv(cfg, q) && Effective(cfg, q, a)
    ensures i < q.sent && Moved(cfg, q, a, i)
  {
    match a
    case Receive(ids) => i :| i in Live(cfg, q, ids) + Spent(cfg, q, ids);
    case Respond(ids) => i :| i in Answered(q, ids, Reported) + Answered(q, ids, Succeeded);
    case Crash(ids) => i :| i in ids && i in q.inflight;
  }

  lemma WeightOfOne(cfg: Config, q: Queue, a: Action, i: nat)
    requires Inv(cfg, q) && !a.Send? && i < q.sent
    ensures Weight(cfg, Step(cfg, q, a), i) <= Weight(cfg, q, i)
    ensures Moved(cfg, q, a, i) ==> Weight(cfg, Step(cfg, q, a), i) < Weight(cfg, q, i)
  {
    assert Accounted(cfg, q, i);
  }

  predicate NothingSent(actions: seq<Action>) {
    forall a :: a in actions ==> !a.Send?
  }

  lemma {:induction false} NoWeightNoPending(cfg: Config, q: Queue, n: nat)
    requires TotalWeight(cfg, q, n) == 0
    ensures forall i :: 0 <= i < n ==> Weight(cfg, q, i) == 0
  {
    if n > 0 { NoWeightNoPending(cfg, q, n - 1); }
  }

  lemma WeightlessIsDrained(cfg: Config, q: Queue)
    requires Inv(cfg, q) && TotalWeight(cfg, q, q.sent) == 0
    ensures Drained(q)
  {
    NoWeightNoPending(cfg, q, q.sent);
    forall i | i in q.info
      ensures i !in q.queued && i !in q.inflight
    {
      assert Weight(cfg, q, i) == 0;
    }
  }

  lemma StaysDrained(cfg: Config, q: Queue, a: Action)
    requires Drained(q) && !a.Send?
    ensures Drained(Step(cfg, q, a))
  {
    match a
    case Receive(ids) => assert Live(cfg, q, ids) == {};
    case Process(_, _, _) =>
    case Respond(ids) => assert Answered(q, ids, Reported) == {} && Answered(q, ids, Succeeded) == {};
    case Crash(ids) =>
  }

  /** TotalWeight is a variant: that much progress empties the queue. */
  lemma {:induction false} ProgressDrains(cfg: Config, q: Queue, actions: seq<Action>)
    requires Inv(cfg, q) && NothingSent(actions)
    ensures RunAll(cfg, q, actions).sent == q.sent
    ensures Drained(q) || Progress(cfg, q, actions) >= TotalWeight(cfg, q, q.sent) ==> Drained(RunAll(cfg, q, actions))
    decreases |actions|
  {
    if actions == [] {
      if TotalWeight(cfg, q, q.sent) == 0 { WeightlessIsDrained(cfg, q); }
    } else {
      assert actions[0] in actions;
      StepLosesWeight(cfg, q, actions[0]);
      StepKeeps(cfg, q, actions[0]);
      if Drained(q) { StaysDrained(cfg, q, actions[0]); }
      ProgressDrains(cfg, Step(cfg, q, actions[0]), actions[1..]);
    }
  }

  /** If deliveries and batch answers keep coming, every message ends acknowledged or in the
      dead-letter queue, after at most TotalWeight of them; a body that does not parse ends in the
      dead-letter queue, a message that process_record never returned for too. */
  lemma EveryMessageIsSettled(cfg: Config, sends: seq<Action>, actions: seq<Action>, i: nat)
    requires NothingSent(actions)
    requires var q := RunAll(cfg, EMPTY, sends);
             Progress(cfg, q, actions) >= TotalWeight(cfg, q, q.sent)
    ensures var q := RunAll(cfg, EMPTY, sends);
            var t := RunAll(cfg, q, actions);
            i < q.sent ==>
              && i in t.info
              && (i in t.acked || i in t.dlq)
              && (i in t.dlq ==> i !in t.acked && t.info[i].receives == cfg.maxReceives)
              && (!t.info[i].parseable || !t.info[i].returned ==> i in t.dlq)
  {
    var q := RunAll(cfg, EMPTY, sends);
    var t := RunAll(cfg, q, actions);
    RunKeeps(cfg, EMPTY, sends);
    RunKeeps(cfg, q, actions);
    ProgressDrains(cfg, q, actions);
    if i < q.sent { assert Accounted(cfg, t, i); }
  }

  /** While anything is pending, an effective action exists: receiving what is queued, or letting
      what is in flight become visible again. */
  lemma NeverStuck(cfg: Config, q: Queue)
    requires Inv(cfg, q) && !Drained(q)
    ensures Effective(cfg, q, Receive(q.queued)) || Effective(cfg, q, Crash(q.inflight.Keys))
  {
    if q.queued != {} {
      var i :| i in q.queued;
      assert i in q.info;
      assert i in Live(cfg, q, q.queued) + Spent(cfg, q, q.queued);
    } else {
      var i :| i in q.inflight;
      assert i in q.inflight.Keys;
    }
  }
}
