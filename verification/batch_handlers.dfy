/** The three handlers of the scheduled batch: split the run into shards, process one shard,
    aggregate the shard results. */
module BatchHandlers {
  import opened StatesLanguage

  const SHARD_SIZE := 1000

  datatype Shard = Shard(id: nat, source: string, start: int, end: int)

  /** What one iteration of the Map state leaves in `$.results`. */
  datatype Result = Succeeded(id: nat, processed: int) | Failed(id: nat, error: ErrorName)

  datatype RunStatus = SUCCEEDED | PARTIAL

  datatype Summary = Summary(total: nat, succeeded: nat, failed: nat, records: int, status: RunStatus)

  function ShardAt(i: nat, source: string): Shard {
    Shard(i, source, i * SHARD_SIZE, (i + 1) * SHARD_SIZE)
  }

  function Split(count: nat, source: string): (shards: seq<Shard>)
    ensures |shards| == count
    ensures forall i :: 0 <= i < count ==> shards[i] == ShardAt(i, source)
  {
    seq(count, i requires 0 <= i => ShardAt(i, source))
  }

  function Process(s: Shard): Result {
    Succeeded(s.id, s.end - s.start)
  }

  function Successes(results: seq<Result>): seq<Result> {
    if results == [] then []
    else if results[0].Succeeded? then [results[0]] + Successes(results[1..]) else Successes(results[1..])
  }

  function Failures(results: seq<Result>): seq<Result> {
    if results == [] then []
    else if results[0].Failed? then [results[0]] + Failures(results[1..]) else Failures(results[1..])
  }

  function Records(results: seq<Result>): int {
    if results == [] then 0
    else (if results[0].Succeeded? then results[0].processed else 0) + Records(results[1..])
  }

  function Reduce(results: seq<Result>): Summary {
    var failed := Failures(results);
    Summary(|results|, |Successes(results)|, |failed|, Records(Successes(results)),
            if failed != [] then PARTIAL else SUCCEEDED)
  }

  /** The shards cover [0, 1000 * count) without gap or overlap: a record index lies in shard i
      exactly when i is its thousand. */
  lemma ShardsTile(count: nat, source: string, record: int, i: nat)
    requires i < count
    ensures var shards := Split(count, source);
            && (shards[i].start <= record < shards[i].end <==> i == record / SHARD_SIZE)
            && (0 <= record < SHARD_SIZE * count <==> 0 <= record / SHARD_SIZE < count)
            && (0 <= shards[i].start && shards[i].end <= SHARD_SIZE * count)
  {
  }

  /** The descriptor of each shard, and what processing it returns. */
  lemma ShardFields(count: nat, source: string, i: nat)
    requires i < count
    ensures var s := Split(count, source)[i];
            && s.id == i && s.source == source && s.start == 1000 * i && s.end == 1000 * i + 1000
            && Process(s) == Succeeded(i, 1000)
  {
  }

  /** A shard of any range reports its own id and the length of the range. */
  lemma ProcessCounts(id: nat, source: string, start: int, length: int)
    ensures Process(Shard(id, source, start, start + length)) == Succeeded(id, length)
  {
  }

  /** Each result is that of its own shard: an honest success or a failure. */
  predicate ResultOf(r: Result, s: Shard) {
    r == Process(s) || (r.Failed? && r.id == s.id)
  }

  lemma {:induction false} CountsAddUp(results: seq<Result>)
    ensures |Successes(results)| + |Failures(results)| == |results|
    ensures Failures(results) != [] <==> exists i :: 0 <= i < |results| && results[i].Failed?
  {
    if results != [] {
      CountsAddUp(results[1..]);
      if results[0].Failed? {
      } else if Failures(results) != [] {
        var i :| 0 <= i < |results[1..]| && results[1..][i].Failed?;
        assert results[i + 1].Failed?;
      } else {
        forall i | 0 <= i < |results| ensures !results[i].Failed? {
          if i > 0 { assert results[1..][i - 1] == results[i]; }
        }
      }
    }
  }

  lemma {:induction false} RecordsAddUp(results: seq<Result>)
    requires forall i :: 0 <= i < |results| && results[i].Succeeded? ==> results[i].processed == SHARD_SIZE
    ensures Records(Successes(results)) == SHARD_SIZE * |Successes(results)|
  {
    if results != [] {
      assert forall i :: 0 <= i < |results| - 1 ==> results[1..][i] == results[i + 1];
      RecordsAddUp(results[1..]);
      if results[0].Succeeded? {
        assert Successes(results)[1..] == Successes(results[1..]);
      }
    }
  }

  /** The summary of any batch in which each shard either succeeded or failed. */
  lemma SummaryIsExact(count: nat, source: string, results: seq<Result>)
    requires |results| == count
    requires forall i :: 0 <= i < count ==> ResultOf(results[i], Split(count, source)[i])
    ensures var s := Reduce(results);
            && s.total == count && s.succeeded + s.failed == count
            && s.records == SHARD_SIZE * (count - s.failed)
            && (s.status.PARTIAL? <==> exists i :: 0 <= i < count && results[i].Failed?)
            && (s.status.PARTIAL? <==> s.failed > 0)
  {
    CountsAddUp(results);
    RecordsAddUp(results);
  }
}
