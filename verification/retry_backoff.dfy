/** The SQS processor: full-jitter backoff and the partial-batch response of `handle`. */
module RetryBackoff {
  import opened Integers
  import opened StatesLanguage

  const SQS_MAX_VISIBILITY_SECONDS := 43200

  /** The ceiling as computed, with the exponent guarded at 30. */
  function Ceiling(receiveCount: int, base: int, cap: int): (c: int)
    ensures 0 <= c <= SQS_MAX_VISIBILITY_SECONDS
  {
    var attempt := Max(1, receiveCount);
    var exponent := Min(attempt - 1, 30);
    Max(0, Min(Min(cap, base * Pow(2, exponent)), SQS_MAX_VISIBILITY_SECONDS))
  }

  /** The ceiling as documented: min(cap, base * 2^(n-1)) clamped to the 12 hours that SQS allows. */
  function DocumentedCeiling(receiveCount: int, base: int, cap: int): int {
    Max(0, Min(Min(cap, base * Pow(2, Max(1, receiveCount) - 1)), 43200))
  }

  lemma {:induction false} PowGrows(m: nat, n: nat)
    requires m <= n
    ensures Pow(2, m) <= Pow(2, n)
    decreases n
  {
    if m < n { PowGrows(m, n - 1); }
  }

  lemma PowSixteen()
    ensures Pow(2, 16) == 65536
  {
    assert Pow(2, 4) == 2 * Pow(2, 3) == 4 * Pow(2, 2) == 8 * Pow(2, 1) == 16 * Pow(2, 0);
    assert Pow(2, 8) == 2 * Pow(2, 7) == 4 * Pow(2, 6) == 8 * Pow(2, 5) == 16 * Pow(2, 4);
    assert Pow(2, 12) == 2 * Pow(2, 11) == 4 * Pow(2, 10) == 8 * Pow(2, 9) == 16 * Pow(2, 8);
    assert Pow(2, 16) == 2 * Pow(2, 15) == 4 * Pow(2, 14) == 8 * Pow(2, 13) == 16 * Pow(2, 12);
  }

  lemma ScaleUp(base: int, a: int, b: int)
    requires 0 <= a <= b
    ensures base >= 0 ==> base * a <= base * b
    ensures base <= 0 ==> base * b <= base * a <= 0
  {
    if base >= 0 { assert base * (b - a) >= 0; } else { assert -base * (b - a) >= 0; }
  }

  /** For all integers, the overflow guard changes nothing. */
  lemma GuardIsInvisible(receiveCount: int, base: int, cap: int)
    ensures Ceiling(receiveCount, base, cap) == DocumentedCeiling(receiveCount, base, cap)
  {
    var n := Max(1, receiveCount);
    if n - 1 > 30 {
      PowSixteen();
      PowGrows(16, 30);
      PowGrows(30, n - 1);
      ScaleUp(base, Pow(2, 30), Pow(2, n - 1));
      if base >= 1 { ScaleUp(Pow(2, 30), 1, base); }
    }
  }

  /** Later attempts have ceilings at least as high. */
  lemma CeilingGrows(m: int, n: int, base: int, cap: int)
    requires m <= n
    ensures Ceiling(m, base, cap) <= Ceiling(n, base, cap)
  {
    GuardIsInvisible(m, base, cap);
    GuardIsInvisible(n, base, cap);
    PowGrows(Max(1, m) - 1, Max(1, n) - 1);
    ScaleUp(base, Pow(2, Max(1, m) - 1), Pow(2, Max(1, n) - 1));
  }

  /** `uniform(0, ceiling)` for a draw in [0, 1], truncated to whole seconds. */
  function Jittered(ceiling: int, draw: real): int {
    (draw * (ceiling as real)).Floor
  }

  lemma JitterWithinCeiling(ceiling: int, draw: real)
    requires 0.0 <= draw <= 1.0 && ceiling >= 0
    ensures 0 <= Jittered(ceiling, draw) <= ceiling
    ensures Jittered(ceiling, 0.0) == 0 && Jittered(ceiling, 1.0) == ceiling
  {
    var c := ceiling as real;
    assert 0.0 <= draw * c;
    assert (1.0 - draw) * c >= 0.0;
    assert draw * c <= c;
  }

  function Delay(receiveCount: int, base: int, cap: int, draw: real): int {
    Jittered(Ceiling(receiveCount, base, cap), draw)
  }

  /** Sum of the ceilings of attempts 1..n. */
  function CeilingSum(base: int, cap: int, n: nat): nat {
    if n == 0 then 0 else CeilingSum(base, cap, n - 1) + Ceiling(n, base, cap)
  }

  // ------------------------------------------------ the batch handler

  /** One record of a batch: whether its body parses (an empty body does) and whether
      process_record raises on it. */
  datatype Delivery = Delivery(id: nat, receives: nat, parseable: bool, raises: bool, draw: real)

  predicate Failing(d: Delivery) {
    !d.parseable || d.raises
  }

  /** batchItemFailures: the failing records, in batch order. */
  function FailureIds(batch: seq<Delivery>): seq<nat> {
    if batch == [] then []
    else FailureIds(batch[..|batch| - 1]) + if Failing(batch[|batch| - 1]) then [batch[|batch| - 1].id] else []
  }

  /** The positions of the failing records, in increasing order. */
  function FailurePositions(batch: seq<Delivery>): seq<nat> {
    if batch == [] then []
    else FailurePositions(batch[..|batch| - 1]) + if Failing(batch[|batch| - 1]) then [|batch| - 1] else []
  }

  /** FailureIds is exactly the in-order subsequence of failing records: its entries are the ids at
      strictly increasing positions, and those positions are all and only the failing ones. */
  lemma {:induction false} FailuresAreTheSubsequence(batch: seq<Delivery>)
    ensures var ps := FailurePositions(batch);
            && |ps| == |FailureIds(batch)|
            && (forall k :: 0 <= k < |ps| ==>
                  && ps[k] < |batch| && FailureIds(batch)[k] == batch[ps[k]].id
                  && (!batch[ps[k]].parseable || batch[ps[k]].raises))
            && (forall j, k :: 0 <= j < k < |ps| ==> ps[j] < ps[k])
            && (forall i :: 0 <= i < |batch| && (!batch[i].parseable || batch[i].raises) ==> i in ps)
  {
    if batch != [] {
      var init := batch[..|batch| - 1];
      FailuresAreTheSubsequence(init);
      assert forall i :: 0 <= i < |init| ==> init[i] == batch[i];
    }
  }

  /** Visibility timeouts after a batch: a record that parsed but raised gets its backoff, unless
      the request to set it is refused. */
  function VisibilityAfter(v: map<nat, int>, batch: seq<Delivery>, settable: seq<bool>, base: int, cap: int)
    : map<nat, int>
    requires |settable| == |batch|
  {
    if batch == [] then v
    else
      var n := |batch| - 1;
      var d := batch[n];
      var before := VisibilityAfter(v, batch[..n], settable[..n], base, cap);
      if d.parseable && d.raises && settable[n] then before[d.id := Delay(d.receives, base, cap, d.draw)] else before
  }

  /** Unparseable and successful records keep the queue's own visibility timeout; every timeout the
      handler sets is within the documented ceiling of the record's attempt. */
  lemma {:induction false} OnlyRaisingAreBackedOff(v: map<nat, int>, batch: seq<Delivery>, settable: seq<bool>,
                                                   base: int, cap: int, id: nat)
    requires |settable| == |batch| && forall d :: d in batch ==> 0.0 <= d.draw <= 1.0
    ensures var after := VisibilityAfter(v, batch, settable, base, cap);
            || ((id in after <==> id in v) && (id in after ==> after[id] == v[id]))
            || (id in after && exists d :: d in batch && d.id == id && d.parseable && d.raises &&
                                 0 <= after[id] <= DocumentedCeiling(d.receives, base, cap))
  {
    if batch != [] {
      var n := |batch| - 1;
      var d := batch[n];
      assert d in batch;
      assert forall e :: e in batch[..n] ==> e in batch;
      OnlyRaisingAreBackedOff(v, batch[..n], settable[..n], base, cap, id);
      GuardIsInvisible(d.receives, base, cap);
      JitterWithinCeiling(Ceiling(d.receives, base, cap), d.draw);
    }
  }

  ghost predicate DistinctIds(batch: seq<Delivery>) {
    forall j, k :: 0 <= j < k < |batch| ==> batch[j].id != batch[k].id
  }

  /** A message outside the batch keeps the visibility it had. */
  lemma {:induction false} OthersKeepVisibility(v: map<nat, int>, batch: seq<Delivery>, settable: seq<bool>,
                                                base: int, cap: int, id: nat)
    requires |settable| == |batch| && forall k :: 0 <= k < |batch| ==> batch[k].id != id
    ensures var after := VisibilityAfter(v, batch, settable, base, cap);
            (id in after <==> id in v) && (id in v ==> after[id] == v[id])
  {
    if batch != [] {
      OthersKeepVisibility(v, batch[..|batch| - 1], settable[..|batch| - 1], base, cap, id);
    }
  }

  lemma {:induction false} OwnVisibility(v: map<nat, int>, batch: seq<Delivery>, settable: seq<bool>,
                                         base: int, cap: int, k: nat)
    requires |settable| == |batch| && k < |batch| && DistinctIds(batch)
    ensures var after := VisibilityAfter(v, batch, settable, base, cap);
            var d := batch[k];
            if d.parseable && d.raises && settable[k] then
              d.id in after && after[d.id] == Delay(d.receives, base, cap, d.draw)
            else (d.id in after <==> d.id in v) && (d.id in v ==> after[d.id] == v[d.id])
  {
    var n := |batch| - 1;
    var init := batch[..n];
    if k < n {
      assert init[k] == batch[k] && batch[k].id != batch[n].id;
      OwnVisibility(v, init, settable[..n], base, cap, k);
    } else {
      OthersKeepVisibility(v, init, settable[..n], base, cap, batch[k].id);
    }
  }

  /** `delay` is the product of draw and ceiling, cut to whole seconds. */
  ghost predicate CutTo(draw: real, ceiling: int, delay: int) {
    0.0 <= draw * ceiling as real - delay as real < 1.0
  }

  lemma JitterCuts(ceiling: int, draw: real)
    ensures CutTo(draw, ceiling, Jittered(ceiling, draw))
  {
  }

  lemma DelayCuts(receives: int, base: int, cap: int, draw: real)
    ensures CutTo(draw, DocumentedCeiling(receives, base, cap), Delay(receives, base, cap, draw))
  {
    GuardIsInvisible(receives, base, cap);
    JitterCuts(Ceiling(receives, base, cap), draw);
  }

  /** In a batch of distinct messages each record's visibility is decided by itself: when it parsed, raised
      and the request to change it is granted, it is the jittered part of the documented ceiling for its
      receive count; otherwise it stays as it was. */
  lemma RaisingIsBackedOff(v: map<nat, int>, batch: seq<Delivery>, settable: seq<bool>, base: int, cap: int, k: nat)
    requires |settable| == |batch| && k < |batch| && DistinctIds(batch)
    ensures var after := VisibilityAfter(v, batch, settable, base, cap);
            var d := batch[k];
            if d.parseable && d.raises && settable[k] then
              d.id in after && CutTo(d.draw, DocumentedCeiling(d.receives, base, cap), after[d.id])
            else (d.id in after <==> d.id in v) && (d.id in v ==> after[d.id] == v[d.id])
  {
    OwnVisibility(v, batch, settable, base, cap, k);
    DelayCuts(batch[k].receives, base, cap, batch[k].draw);
  }

  class Processor {
    const base: int
    const cap: int
    /** Visibility timeouts set by ChangeMessageVisibility. */
    var visibility: map<nat, int>

    constructor (base: int, cap: int)
      ensures this.base == base && this.cap == cap && visibility == map[]
    {
      this.base := base;
      this.cap := cap;
      visibility := map[];
    }

    method ComputeBackoffSeconds(receiveCount: int, draw: real) returns (delay: int)
      requires 0.0 <= draw <= 1.0
      ensures delay == Delay(receiveCount, base, cap, draw)
      ensures 0 <= delay <= DocumentedCeiling(receiveCount, base, cap)
    {
      var attempt := if receiveCount < 1 then 1 else receiveCount;
      var exponent := if attempt - 1 < 30 then attempt - 1 else 30;
      var ceiling := Min(Min(cap, base * Pow(2, exponent)), SQS_MAX_VISIBILITY_SECONDS);
      if ceiling < 0 { ceiling := 0; }
      delay := (draw * (ceiling as real)).Floor;
      GuardIsInvisible(receiveCount, base, cap);
      JitterWithinCeiling(ceiling, draw);
    }

    /** Best effort: a refused visibility change (`settable` false) is swallowed. */
    method BackoffRecord(d: Delivery, settable: bool) returns (delay: int)
      requires 0.0 <= d.draw <= 1.0
      modifies this
      ensures delay == Delay(d.receives, base, cap, d.draw)
      ensures visibility == if settable then old(visibility)[d.id := delay] else old(visibility)
    {
      delay := ComputeBackoffSeconds(d.receives, d.draw);
      if settable {
        visibility := visibility[d.id := delay];
      }
    }

    method Handle(batch: seq<Delivery>, settable: seq<bool>) returns (failures: seq<nat>)
      requires |settable| == |batch| && forall d :: d in batch ==> 0.0 <= d.draw <= 1.0
      modifies this
      ensures failures == FailureIds(batch)
      ensures visibility == VisibilityAfter(old(visibility), batch, settable, base, cap)
    {
      failures := [];
      var i := 0;
      while i < |batch|
        invariant 0 <= i <= |batch|
        invariant failures == FailureIds(batch[..i])
        invariant visibility == VisibilityAfter(old(visibility), batch[..i], settable[..i], base, cap)
      {
        var d := batch[i];
        assert batch[..i + 1][..i] == batch[..i] && settable[..i + 1][..i] == settable[..i];
        if !d.parseable {
          failures := failures + [d.id];
        } else if d.raises {
          var delay := BackoffRecord(d, settable[i]);
          failures := failures + [d.id];
        }
        i := i + 1;
      }
      assert batch[..|batch|] == batch && settable[..|batch|] == settable;
    }
  }
}
