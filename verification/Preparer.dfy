/** Preparing blocks: fetching, bucketing one ranged log request by block, and decoding, so that every
    planned monitor ends up with exactly what scanning that block for it alone would give. */
module Preparer {
  import opened Domain
  import opened Results
  import opened Abi
  import opened Indexer
  import opened BlockDecoder

  // ---- The block source and its contract ----

  /** A finalized chain: fixed transactions, outcomes and logs per block. */
  datatype Source = Source(transactions: U64 -> seq<Transaction>, succeeded: Hash -> bool, logs: U64 -> seq<Log>)

  ghost predicate ValidSource(src: Source) {
    forall n: U64, log :: log in src.logs(n) ==> Clean(log, n)
  }

  datatype LogQuery = LogQuery(first: U64, last: U64, targets: set<LogTarget>)

  predicate InTargets(log: Log, targets: set<LogTarget>) {
    log.topics != [] && LogTarget(log.address, log.topics[0]) in targets
  }

  function Aimed(targets: set<LogTarget>): Log -> bool {
    (log: Log) => InTargets(log, targets)
  }

  /** One block's logs for the targets. */
  function WantedIn(src: Source, block: U64, targets: set<LogTarget>): seq<Log> {
    Keep(src.logs(block), Aimed(targets))
  }

  function InBlock(number: U64): Log -> bool {
    (log: Log) => log.block == Some(number)
  }

  /** Every log of the blocks `first..last` for one of the targets, in block order. */
  function MatchingLogs(src: Source, first: int, last: int, targets: set<LogTarget>): seq<Log>
    requires 0 <= first && last <= U64_MAX
    decreases last - first
  {
    if first > last then []
    else MatchingLogs(src, first, last - 1, targets) + WantedIn(src, last, targets)
  }

  /** A log answer: exactly the wanted logs, in any order. */
  ghost predicate LogsAnswer(src: Source, query: LogQuery, logs: seq<Log>) {
    multiset(logs) == multiset(MatchingLogs(src, query.first, query.last, query.targets))
  }

  function OutcomesOf(src: Source, hashes: seq<Hash>): seq<Outcome> {
    seq(|hashes|, k requires 0 <= k < |hashes| => Outcome(hashes[k], src.succeeded(hashes[k])))
  }

  /** The node behind a block source. A request may fail; an answer is the chain's. */
  class Endpoint {
    const src: Source
    ghost var failed: bool
    ghost var requests: nat
    /** The last finalized head it answered with. */
    ghost var finalized: Option<U64>

    constructor (src: Source)
      ensures this.src == src && !failed && requests == 0
    {
      this.src, failed, requests, finalized := src, false, 0, None;
    }

    method FinalizedHead() returns (r: Result<U64>)
      modifies this
      ensures finalized == if r.Ok? then Some(r.value) else old(finalized)
      ensures requests == old(requests) + 1 && (old(failed) ==> failed)
      ensures r.Err? ==> failed
    {
      requests := requests + 1;
      if * {
        failed := true;
        return Err;
      }
      var head: U64 := *;
      finalized := Some(head);
      r := Ok(head);
    }

    method FetchBlock(number: U64) returns (r: Result<Block>)
      modifies this`failed, this`requests
      ensures requests == old(requests) + 1 && (old(failed) ==> failed)
      ensures r.Err? ==> failed
      ensures r.Ok? ==> r.value == Block(number, src.transactions(number))
    {
      requests := requests + 1;
      if * {
        failed := true;
        return Err;
      }
      r := Ok(Block(number, src.transactions(number)));
    }

    method FetchOutcomes(hashes: seq<Hash>) returns (r: Result<seq<Outcome>>)
      modifies this`failed, this`requests
      ensures requests == old(requests) + 1 && (old(failed) ==> failed)
      ensures r.Err? ==> failed
      ensures r.Ok? ==> r.value == OutcomesOf(src, hashes)
    {
      requests := requests + 1;
      if * {
        failed := true;
        return Err;
      }
      r := Ok(OutcomesOf(src, hashes));
    }

    method FetchLogs(query: LogQuery) returns (r: Result<seq<Log>>)
      modifies this`failed, this`requests
      ensures requests == old(requests) + 1 && (old(failed) ==> failed)
      ensures r.Err? ==> failed
      ensures r.Ok? ==> LogsAnswer(src, query, r.value)
    {
      requests := requests + 1;
      if * {
        failed := true;
        return Err;
      }
      var wanted := MatchingLogs(src, query.first, query.last, query.targets);
      var logs :| multiset(logs) == multiset(wanted);
      r := Ok(logs);
    }
  }

  /** A cache that may lose any entry at any time. */
  class BlockCache {
    var entries: map<U64, Block>

    ghost predicate Consistent(src: Source)
      reads this
    {
      forall n :: n in entries ==> entries[n] == Block(n, src.transactions(n))
    }

    constructor ()
      ensures entries == map[]
    {
      entries := map[];
    }

    method Get(number: U64) returns (r: Option<Block>)
      ensures r.Some? ==> number in entries && r.value == entries[number]
    {
      if number in entries {
        if * {
          return Some(entries[number]);
        }
      }
      r := None;
    }

    method Put(block: Block)
      modifies this
      ensures forall n :: n in entries ==>
                if n == block.number then entries[n] == block else n in old(entries) && entries[n] == old(entries)[n]
    {
      var kept: set<U64> := *;
      entries := (map n | n in entries && n in kept :: entries[n])[block.number := block];
    }

    /** Every entry below the bound goes; no other entry has to. */
    method EvictBefore(bound: U64)
      modifies this
      ensures entries == map n | n in old(entries) && n >= bound :: old(entries)[n]
    {
      entries := map n | n in entries && n >= bound :: entries[n];
    }
  }

  // ---- What a monitor should get from one block ----

  function ScanBlock(d: Decoders, src: Source, m: Monitor, number: U64): seq<Decoded> {
    ScanCalls(d, m, number, src.transactions(number), src.succeeded) + ScanEvents(d, m, number, src.logs(number))
  }

  /** Prepared results: per planned monitor a permutation of its own scan, and nothing else. */
  ghost predicate PreparedFor(d: Decoders, src: Source, monitors: seq<Monitor>, plan: BlockPlan, results: seq<Decoded>) {
    && (forall j :: 0 <= j < |monitors| ==>
          multiset(Select(results, monitors[j].id)) ==
          if IsPlanned(monitors, j, plan.block, plan.indices) then multiset(ScanBlock(d, src, monitors[j], plan.block)) else multiset{})
    && (forall x :: x in results ==> OfPlanned(x, monitors, plan.block, plan.indices))
  }

  lemma {:induction false} GatherEmpty<A(!new)>(s: seq<A>, f: A -> seq<Decoded>)
    requires forall x :: x in s ==> f(x) == []
    ensures Gather(s, f) == []
  {
    if s == [] {
    } else {
      GatherEmpty(s[..|s| - 1], f);
    }
  }

  lemma ScanCallsOfEvent(d: Decoders, m: Monitor, number: U64, txs: seq<Transaction>, succeeded: Hash -> bool)
    requires m.target.EventTarget?
    ensures ScanCalls(d, m, number, txs, succeeded) == []
  {
    forall tx | tx in txs
      ensures TxHits(d, m, number, succeeded)(tx) == []
    {
      assert CallHits(d, m, number, tx) == [];
    }
    GatherEmpty(txs, TxHits(d, m, number, succeeded));
  }

  lemma ScanEventsOfCall(d: Decoders, m: Monitor, number: U64, logs: seq<Log>)
    requires m.target.CallTarget?
    ensures ScanEvents(d, m, number, logs) == []
  {
    GatherEmpty(logs, LogHits(d, m, number));
  }

  // ---- prepare_calls ----

  function CallScan(d: Decoders, src: Source, number: U64): Monitor -> seq<Decoded> {
    m => ScanCalls(d, m, number, src.transactions(number), src.succeeded)
  }

  function AnswersFor(txs: seq<Transaction>, succeeded: Hash -> bool, candidates: seq<nat>): seq<Answer>
    requires forall c :: c in candidates ==> c < |txs|
  {
    seq(|candidates|, k requires 0 <= k < |candidates| =>
      assert candidates[k] in candidates;
      (candidates[k], Outcome(txs[candidates[k]].hash, succeeded(txs[candidates[k]].hash))))
  }

  /** The candidates among the first `n` transactions lose nothing for any planned monitor. */
  ghost predicate Sifted(d: Decoders, block: Block, index: MonitorIndex, planned: seq<nat>, succeeded: Hash -> bool,
                         candidates: seq<nat>, n: nat)
    requires n <= |block.transactions|
  {
    && (forall c :: c in candidates ==> c < n)
    && forall j :: 0 <= j < |index.monitors| && IsPlanned(index.monitors, j, block.number, planned) ==>
         CallTotals(d, block, AnswersFor(block.transactions, succeeded, candidates))(index.monitors[j]) ==
         ScanCalls(d, index.monitors[j], block.number, block.transactions[..n], succeeded)
  }

  lemma AnswersMore(d: Decoders, block: Block, succeeded: Hash -> bool, candidates: seq<nat>, n: nat, m: Monitor)
    requires n < |block.transactions| && forall c :: c in candidates ==> c < n
    ensures CallTotals(d, block, AnswersFor(block.transactions, succeeded, candidates + [n]))(m) ==
            CallTotals(d, block, AnswersFor(block.transactions, succeeded, candidates))(m) +
            TxHits(d, m, block.number, succeeded)(block.transactions[n])
  {
    var txs := block.transactions;
    var answer: Answer := (n, Outcome(txs[n].hash, succeeded(txs[n].hash)));
    var before := AnswersFor(txs, succeeded, candidates);
    assert AnswersFor(txs, succeeded, candidates + [n]) == before + [answer];
    assert (before + [answer])[..|before|] == before;
    assert AnswerHits(d, m, block)(answer) == TxHits(d, m, block.number, succeeded)(txs[n]);
  }

  /** A transaction no planned monitor has the key of gives a planned monitor nothing. */
  lemma NotCandidate(d: Decoders, block: Block, index: MonitorIndex, planned: seq<nat>, succeeded: Hash -> bool, tx: Transaction, j: nat)
    requires ValidIndex(index) && IsPlanned(index.monitors, j, block.number, planned)
    requires !HasCall(index, block.number, tx, planned)
    ensures TxHits(d, index.monitors[j], block.number, succeeded)(tx) == []
  {
    var m := index.monitors[j];
    if m.target.CallTarget? && CallKeyOf(tx) == Some(KeyOf(m)) {
      ReachedHasPlanned(index.monitors, index.calls, j, true, KeyOf(m), block.number, planned);
    }
  }

  lemma SiftOne(d: Decoders, block: Block, index: MonitorIndex, planned: seq<nat>, succeeded: Hash -> bool,
                candidates: seq<nat>, n: nat)
    requires ValidIndex(index) && n < |block.transactions|
    requires Sifted(d, block, index, planned, succeeded, candidates, n)
    ensures Sifted(d, block, index, planned, succeeded,
                   if HasCall(index, block.number, block.transactions[n], planned) then candidates + [n] else candidates, n + 1)
  {
    var txs := block.transactions;
    assert txs[..n + 1][..n] == txs[..n];
    forall j | 0 <= j < |index.monitors| && IsPlanned(index.monitors, j, block.number, planned)
      ensures CallTotals(d, block, AnswersFor(txs, succeeded,
                if HasCall(index, block.number, txs[n], planned) then candidates + [n] else candidates))(index.monitors[j]) ==
              ScanCalls(d, index.monitors[j], block.number, txs[..n + 1], succeeded)
    {
      var m := index.monitors[j];
      assert ScanCalls(d, m, block.number, txs[..n + 1], succeeded) ==
             ScanCalls(d, m, block.number, txs[..n], succeeded) + TxHits(d, m, block.number, succeeded)(txs[n]);
      if HasCall(index, block.number, txs[n], planned) {
        AnswersMore(d, block, succeeded, candidates, n, m);
      } else {
        NotCandidate(d, block, index, planned, succeeded, txs[n], j);
      }
    }
  }

  /** From the cache, or fetched and cached. */
  method LoadBlock(node: Endpoint, cache: BlockCache, number: U64) returns (r: Result<Block>)
    requires cache.Consistent(node.src)
    modifies cache, node`failed, node`requests
    ensures cache.Consistent(node.src)
    ensures r.Ok? ==> r.value == Block(number, node.src.transactions(number))
    ensures number !in old(cache.entries) ==> node.requests == old(node.requests) + 1
    ensures node.requests <= old(node.requests) + 1
    ensures (old(node.failed) || r.Err?) ==> node.failed
  {
    var cached := cache.Get(number);
    if cached.Some? {
      return Ok(cached.value);
    }
    r := node.FetchBlock(number);
    if r.Ok? {
      cache.Put(r.value);
    }
  }

  method FindCandidates(ghost d: Decoders, block: Block, index: MonitorIndex, planned: seq<nat>, ghost succeeded: Hash -> bool)
    returns (candidates: seq<nat>)
    requires ValidIndex(index)
    ensures Sifted(d, block, index, planned, succeeded, candidates, |block.transactions|)
  {
    candidates := [];
    for i := 0 to |block.transactions|
      invariant Sifted(d, block, index, planned, succeeded, candidates, i)
    {
      SiftOne(d, block, index, planned, succeeded, candidates, i);
      if HasCall(index, block.number, block.transactions[i], planned) {
        candidates := candidates + [i];
      }
    }
  }

  function HashesOf(txs: seq<Transaction>, candidates: seq<nat>): (r: seq<Hash>)
    requires forall c :: c in candidates ==> c < |txs|
    ensures |r| == |candidates| && forall k :: 0 <= k < |candidates| ==> candidates[k] < |txs| && r[k] == txs[candidates[k]].hash
  {
    assert forall k :: 0 <= k < |candidates| ==> candidates[k] in candidates;
    seq<Hash>(|candidates|, k requires 0 <= k < |candidates| => txs[candidates[k]].hash)
  }

  /** Asks for the outcomes of exactly the candidates; no request when there are none. */
  method AnswerCandidates(node: Endpoint, block: Block, candidates: seq<nat>) returns (r: Result<seq<Outcome>>)
    requires forall c :: c in candidates ==> c < |block.transactions|
    modifies node`failed, node`requests
    ensures r.Ok? ==> Aligned(block, candidates, r.value)
    ensures r.Ok? ==> Answers(candidates, r.value) == AnswersFor(block.transactions, node.src.succeeded, candidates)
    ensures node.requests == old(node.requests) + if candidates == [] then 0 else 1
    ensures candidates == [] ==> r == Ok([])
    ensures (old(node.failed) || r.Err?) ==> node.failed
  {
    var hashes := HashesOf(block.transactions, candidates);
    if hashes == [] {
      return Ok([]);
    }
    r := node.FetchOutcomes(hashes);
  }

  /** Nothing of our own can fail: the decoder is well-typed and every filter was compiled. */
  ghost predicate Healthy(d: Decoders, index: MonitorIndex) {
    WellTyped(d) && AllCompiled(index.monitors)
  }

  /** Some planned monitor watches calls. */
  predicate PlansCalls(plan: BlockPlan, index: MonitorIndex) {
    exists i :: i in plan.indices && i < |index.monitors| && index.monitors[i].target.CallTarget?
  }

  lemma NoCallsPlanned(d: Decoders, src: Source, plan: BlockPlan, index: MonitorIndex)
    requires Ascending(plan.indices)
    requires !PlansCalls(plan, index)
    ensures PerMonitor([], index.monitors, plan.block, plan.indices, CallScan(d, src, plan.block))
  {
    forall j | 0 <= j < |index.monitors| && IsPlanned(index.monitors, j, plan.block, plan.indices)
      ensures CallScan(d, src, plan.block)(index.monitors[j]) == []
    {
      BinarySearchFinds(plan.indices, j);
      ScanCallsOfEvent(d, index.monitors[j], plan.block, src.transactions(plan.block), src.succeeded);
    }
  }

  /** Every planned monitor's calls of one block, with at most one request for the block and one for
      outcomes; nothing is asked for when no planned monitor watches calls. Only the node can fail it. */
  method PrepareCalls(d: Decoders, node: Endpoint, cache: BlockCache, plan: BlockPlan, index: MonitorIndex)
    returns (r: Result<seq<Decoded>>)
    requires ValidIndex(index) && DistinctIds(index.monitors) && Ascending(plan.indices) && cache.Consistent(node.src)
    modifies cache, node`failed, node`requests
    ensures cache.Consistent(node.src)
    ensures r.Ok? ==> PerMonitor(r.value, index.monitors, plan.block, plan.indices, CallScan(d, node.src, plan.block))
    ensures node.requests <= old(node.requests) + if PlansCalls(plan, index) then 2 else 0
    ensures old(node.failed) || (r.Err? && Healthy(d, index)) ==> node.failed
  {
    if !PlansCalls(plan, index) {
      NoCallsPlanned(d, node.src, plan, index);
      return Ok([]);
    }
    var loaded := LoadBlock(node, cache, plan.block);
    if loaded.Err? {
      return Err;
    }
    var block := loaded.value;
    var candidates := FindCandidates(d, block, index, plan.indices, node.src.succeeded);
    var answered := AnswerCandidates(node, block, candidates);
    if answered.Err? {
      return Err;
    }
    r := DecodeCalls(d, block, index, plan.indices, candidates, answered.value);
    if r.Ok? {
      assert block.transactions[..|block.transactions|] == block.transactions;
      PerMonitorSame(r.value, index.monitors, plan.block, plan.indices,
                     CallTotals(d, block, Answers(candidates, answered.value)), CallScan(d, node.src, plan.block));
    }
  }

  // ---- log_query ----

  predicate KnownPlans(plans: seq<BlockPlan>, index: MonitorIndex) {
    forall k, j :: 0 <= k < |plans| && j in plans[k].indices ==> j < |index.monitors|
  }

  function TargetOf(m: Monitor): LogTarget
    requires m.target.EventTarget?
  {
    LogTarget(m.target.address, m.target.topic0)
  }

  /** The targets of exactly the event monitors planned somewhere in the window. */
  ghost predicate WindowTargets(targets: set<LogTarget>, plans: seq<BlockPlan>, index: MonitorIndex) {
    forall t :: t in targets <==> exists k, j ::
      0 <= k < |plans| && j in plans[k].indices && Watches(index, j, t)
  }

  predicate Watches(index: MonitorIndex, j: nat, t: LogTarget) {
    j < |index.monitors| && index.monitors[j].target.EventTarget? && TargetOf(index.monitors[j]) == t
  }

  method PlanTargets(plan: BlockPlan, index: MonitorIndex) returns (r: Result<set<LogTarget>>)
    ensures r.Ok? <==> forall j :: j in plan.indices ==> j < |index.monitors|
    ensures r.Ok? ==> forall t :: t in r.value <==> exists j :: j in plan.indices && Watches(index, j, t)
  {
    var targets: set<LogTarget> := {};
    var i := 0;
    while i < |plan.indices|
      invariant 0 <= i <= |plan.indices|
      invariant forall j :: j in plan.indices[..i] ==> j < |index.monitors|
      invariant forall t :: t in targets <==> exists j :: j in plan.indices[..i] && Watches(index, j, t)
    {
      var j := plan.indices[i];
      assert plan.indices[..i + 1] == plan.indices[..i] + [j];
      assert j in plan.indices;
      if j >= |index.monitors| {
        return Err;
      }
      ghost var before := targets;
      if index.monitors[j].target.EventTarget? {
        targets := targets + {TargetOf(index.monitors[j])};
      }
      forall t
        ensures t in targets <==> t in before || Watches(index, j, t)
      {
      }
      i := i + 1;
    }
    assert plan.indices[..i] == plan.indices;
    r := Ok(targets);
  }

  /** No query for a window without event monitors; otherwise one query over the window's whole range. */
  method BuildLogQuery(plans: seq<BlockPlan>, index: MonitorIndex) returns (r: Result<Option<LogQuery>>)
    requires AscendingPlans(plans)
    ensures r.Ok? <==> KnownPlans(plans, index)
    ensures r.Ok? && r.value.None? ==> WindowTargets({}, plans, index)
    ensures r.Ok? && r.value.Some? ==>
              var query := r.value.value;
              && plans != [] && query.first == plans[0].block && query.last == plans[|plans| - 1].block
              && query.targets != {} && WindowTargets(query.targets, plans, index)
  {
    if plans == [] {
      return Ok(None);
    }
    var targets: set<LogTarget> := {};
    var k := 0;
    while k < |plans|
      invariant 0 <= k <= |plans|
      invariant KnownPlans(plans[..k], index)
      invariant WindowTargets(targets, plans[..k], index)
    {
      var more := PlanTargets(plans[k], index);
      if more.Err? {
        return Err;
      }
      TargetsMore(targets, more.value, plans, k, index);
      targets := targets + more.value;
      k := k + 1;
    }
    assert plans[..k] == plans;
    if targets == {} {
      return Ok(None);
    }
    r := Ok(Some(LogQuery(plans[0].block, plans[|plans| - 1].block, targets)));
  }

  lemma TargetsMore(targets: set<LogTarget>, more: set<LogTarget>, plans: seq<BlockPlan>, k: nat, index: MonitorIndex)
    requires k < |plans| && WindowTargets(targets, plans[..k], index)
    requires forall t :: t in more <==> exists j :: j in plans[k].indices && Watches(index, j, t)
    ensures WindowTargets(targets + more, plans[..k + 1], index)
  {
  }

  // ---- prepare_event_window ----

  function Bucket(buckets: map<U64, seq<Log>>, number: U64): seq<Log> {
    if number in buckets then buckets[number] else []
  }

  function OfBlock(logs: seq<Log>, number: U64): seq<Log> {
    Keep(logs, InBlock(number))
  }

  /** Every bucket holds exactly its block's logs, in order. */
  ghost predicate BucketsOf(buckets: map<U64, seq<Log>>, logs: seq<Log>) {
    forall number: U64 {:trigger Bucket(buckets, number)} :: Bucket(buckets, number) == OfBlock(logs, number)
  }

  lemma BucketStep(buckets: map<U64, seq<Log>>, logs: seq<Log>, k: nat)
    requires k < |logs| && BucketsOf(buckets, logs[..k]) && logs[k].block.Some?
    ensures BucketsOf(buckets[logs[k].block.value := Bucket(buckets, logs[k].block.value) + [logs[k]]], logs[..k + 1])
  {
    BucketMore(buckets, logs[..k], logs[k]);
    assert logs[..k + 1] == logs[..k] + [logs[k]];
  }

  lemma BucketMore(buckets: map<U64, seq<Log>>, logs: seq<Log>, log: Log)
    requires BucketsOf(buckets, logs) && log.block.Some?
    ensures BucketsOf(buckets[log.block.value := Bucket(buckets, log.block.value) + [log]], logs + [log])
  {
    var next := buckets[log.block.value := Bucket(buckets, log.block.value) + [log]];
    forall number: U64
      ensures Bucket(next, number) == OfBlock(logs + [log], number)
    {
      assert Bucket(buckets, number) == OfBlock(logs, number);
      assert (logs + [log])[..|logs|] == logs;
    }
  }

  predicate WellPlaced(query: LogQuery, log: Log) {
    !log.removed && log.block.Some? && query.first <= log.block.value <= query.last
  }

  /** Fetched logs by block; refuses a removed log, one without a block, and one outside the range. */
  method BucketLogs(query: LogQuery, logs: seq<Log>) returns (r: Result<map<U64, seq<Log>>>)
    ensures r.Ok? <==> forall log :: log in logs ==>
              !log.removed && log.block.Some? && query.first <= log.block.value <= query.last
    ensures r.Ok? ==> BucketsOf(r.value, logs)
  {
    var buckets: map<U64, seq<Log>> := map[];
    var k := 0;
    assert BucketsOf(buckets, []);
    assert logs[..0] == [];
    while k < |logs|
      invariant 0 <= k <= |logs|
      invariant forall i :: 0 <= i < k ==> WellPlaced(query, logs[i])
      invariant BucketsOf(buckets, logs[..k])
    {
      var log := logs[k];
      if !WellPlaced(query, log) {
        assert log in logs;
        return Err;
      }
      BucketStep(buckets, logs, k);
      buckets := buckets[log.block.value := Bucket(buckets, log.block.value) + [log]];
      k := k + 1;
    }
    assert logs[..k] == logs;
    r := Ok(buckets);
  }

  lemma WantedOfBlock(src: Source, block: U64, targets: set<LogTarget>, number: U64)
    requires ValidSource(src)
    ensures OfBlock(WantedIn(src, block, targets), number) == if number == block then WantedIn(src, block, targets) else []
  {
    KeepMembers(src.logs(block), Aimed(targets));
    forall log | log in WantedIn(src, block, targets)
      ensures InBlock(number)(log) == (number == block)
    {
      assert Clean(log, block);
    }
    KeepUniform(WantedIn(src, block, targets), InBlock(number), number == block);
  }

  lemma OfBlockConcat(a: seq<Log>, b: seq<Log>, number: U64)
    ensures OfBlock(a + b, number) == OfBlock(a, number) + OfBlock(b, number)
  {
    KeepConcat(a, b, InBlock(number));
  }

  /** Within the range, the logs of one block are that block's wanted logs. */
  lemma {:induction false} MatchingOfBlock(src: Source, first: int, last: int, targets: set<LogTarget>, number: U64)
    requires ValidSource(src) && 0 <= first && last <= U64_MAX
    ensures OfBlock(MatchingLogs(src, first, last, targets), number) ==
            if first <= number <= last then WantedIn(src, number, targets) else []
    decreases last - first
  {
    if first > last {
      assert MatchingLogs(src, first, last, targets) == [];
    } else {
      MatchingOfBlock(src, first, last - 1, targets, number);
      JoinOfBlock(src, MatchingLogs(src, first, last - 1, targets), last, targets, number);
    }
  }

  lemma JoinOfBlock(src: Source, before: seq<Log>, last: U64, targets: set<LogTarget>, number: U64)
    requires ValidSource(src)
    ensures OfBlock(before + WantedIn(src, last, targets), number) ==
            OfBlock(before, number) + if number == last then WantedIn(src, last, targets) else []
  {
    OfBlockConcat(before, WantedIn(src, last, targets), number);
    WantedOfBlock(src, last, targets, number);
  }

  lemma {:induction false} KeepConcat<A(!new)>(a: seq<A>, b: seq<A>, p: A -> bool)
    ensures Keep(a + b, p) == Keep(a, p) + Keep(b, p)
    decreases |b|
  {
    if b == [] {
      assert a + b == a;
    } else {
      KeepConcat(a, b[..|b| - 1], p);
      assert (a + b)[..|a + b| - 1] == a + b[..|b| - 1];
      assert (a + b)[|a + b| - 1] == b[|b| - 1];
    }
  }

  lemma {:induction false} KeepUniform<A(!new)>(s: seq<A>, p: A -> bool, all: bool)
    requires forall x :: x in s ==> p(x) == all
    ensures Keep(s, p) == if all then s else []
  {
    if s == [] {
    } else {
      var init, last := s[..|s| - 1], s[|s| - 1];
      assert s == init + [last] && last in s;
      KeepUniform(init, p, all);
    }
  }

  lemma SameKeySameTarget(m: Monitor, log: Log)
    requires m.target.EventTarget? && EventKeyOf(log) == Some(KeyOf(m))
    ensures log.topics != [] && LogTarget(log.address, log.topics[0]) == TargetOf(m)
  {
  }

  /** The window's bucket for a block gives a planned event monitor the same events as asking for that
      block and that monitor's target alone. */
  lemma WindowLosesNothing(d: Decoders, src: Source, query: LogQuery, logs: seq<Log>, m: Monitor, number: U64)
    requires ValidSource(src) && LogsAnswer(src, query, logs)
    requires query.first <= number <= query.last
    requires m.target.EventTarget? ==> TargetOf(m) in query.targets
    ensures multiset(ScanEvents(d, m, number, OfBlock(logs, number))) == multiset(ScanEvents(d, m, number, src.logs(number)))
  {
    var matching := MatchingLogs(src, query.first, query.last, query.targets);
    var wanted := Aimed(query.targets);
    forall log
      ensures multiset(OfBlock(logs, number))[log] == multiset(OfBlock(matching, number))[log]
    {
      KeepMultiset(logs, InBlock(number), log);
      KeepMultiset(matching, InBlock(number), log);
    }
    assert multiset(OfBlock(logs, number)) == multiset(OfBlock(matching, number));
    MatchingOfBlock(src, query.first, query.last, query.targets, number);
    GatherMultiset(OfBlock(logs, number), WantedIn(src, number, query.targets), LogHits(d, m, number));
    forall log | log in src.logs(number) && !wanted(log)
      ensures LogHits(d, m, number)(log) == []
    {
      if m.target.EventTarget? && EventKeyOf(log) == Some(KeyOf(m)) {
        SameKeySameTarget(m, log);
      }
    }
    GatherKeep(src.logs(number), wanted, LogHits(d, m, number));
  }

  datatype Prepared = Prepared(plan: BlockPlan, monitors: seq<Monitor>, results: seq<Decoded>)

  /** Attaches decoded events to a block's calls and resolves the plan's monitors. */
  method FinishPrepared(d: Decoders, src: Source, index: MonitorIndex, plan: BlockPlan, calls: seq<Decoded>, logs: seq<Log>)
    returns (r: Result<Prepared>)
    requires ValidIndex(index) && DistinctIds(index.monitors)
    requires forall j :: j in plan.indices ==> j < |index.monitors|
    requires PerMonitor(calls, index.monitors, plan.block, plan.indices, CallScan(d, src, plan.block))
    requires forall j :: 0 <= j < |index.monitors| && IsPlanned(index.monitors, j, plan.block, plan.indices) ==>
               multiset(ScanEvents(d, index.monitors[j], plan.block, logs)) ==
               multiset(ScanEvents(d, index.monitors[j], plan.block, src.logs(plan.block)))
    ensures r.Ok? ==> r.value.plan == plan && r.value.monitors == MonitorsAt(index, plan.indices)
    ensures r.Ok? ==> PreparedFor(d, src, index.monitors, plan, r.value.results)
    ensures WellTyped(d) && AllCompiled(index.monitors) && (forall log :: log in logs ==> Clean(log, plan.block)) ==> r.Ok?
  {
    var events := DecodeEvents(d, plan.block, index, plan.indices, logs);
    if events.Err? {
      return Err;
    }
    var results := calls + events.value;
    forall j | 0 <= j < |index.monitors|
      ensures multiset(Select(results, index.monitors[j].id)) ==
              if IsPlanned(index.monitors, j, plan.block, plan.indices)
              then multiset(ScanBlock(d, src, index.monitors[j], plan.block)) else multiset{}
    {
      SelectConcat(calls, events.value, index.monitors[j].id);
    }
    r := Ok(Prepared(plan, MonitorsAt(index, plan.indices), results));
  }

  function MonitorsAt(index: MonitorIndex, indices: seq<nat>): (r: seq<Monitor>)
    requires forall j :: j in indices ==> j < |index.monitors|
    ensures |r| == |indices| && forall k :: 0 <= k < |indices| ==> indices[k] < |index.monitors| && r[k] == index.monitors[indices[k]]
  {
    assert forall k :: 0 <= k < |indices| ==> indices[k] in indices;
    seq(|indices|, k requires 0 <= k < |indices| => index.monitors[indices[k]])
  }

  ghost predicate SoundPlans(plans: seq<BlockPlan>, index: MonitorIndex) {
    && AscendingPlans(plans)
    && KnownPlans(plans, index)
    && forall k :: 0 <= k < |plans| ==> Ascending(plans[k].indices)
  }

  /** A prepared block of the `k`-th plan. */
  ghost predicate PreparedAt(d: Decoders, src: Source, index: MonitorIndex, plan: BlockPlan, prepared: Prepared) {
    && (forall j :: j in plan.indices ==> j < |index.monitors|)
    && prepared.plan == plan
    && prepared.monitors == MonitorsAt(index, plan.indices)
    && PreparedFor(d, src, index.monitors, plan, prepared.results)
  }

  lemma PlannedTarget(plans: seq<BlockPlan>, k: nat, index: MonitorIndex, targets: set<LogTarget>, j: nat)
    requires SoundPlans(plans, index) && k < |plans| && WindowTargets(targets, plans, index)
    requires IsPlanned(index.monitors, j, plans[k].block, plans[k].indices) && index.monitors[j].target.EventTarget?
    ensures TargetOf(index.monitors[j]) in targets
  {
    BinarySearchFinds(plans[k].indices, j);
    assert j in plans[k].indices && Watches(index, j, TargetOf(index.monitors[j]));
  }

  /** A window without event monitors needs no logs. */
  lemma NoEventsPlanned(d: Decoders, src: Source, plans: seq<BlockPlan>, k: nat, index: MonitorIndex, j: nat)
    requires SoundPlans(plans, index) && k < |plans| && WindowTargets({}, plans, index)
    requires IsPlanned(index.monitors, j, plans[k].block, plans[k].indices)
    ensures ScanEvents(d, index.monitors[j], plans[k].block, []) ==
            ScanEvents(d, index.monitors[j], plans[k].block, src.logs(plans[k].block))
  {
    var m := index.monitors[j];
    if m.target.EventTarget? {
      PlannedTarget(plans, k, index, {}, j);
    }
    ScanEventsOfCall(d, m, plans[k].block, src.logs(plans[k].block));
  }

  ghost predicate CallsPrepared(d: Decoders, src: Source, index: MonitorIndex, plans: seq<BlockPlan>, calls: seq<Result<seq<Decoded>>>) {
    && |calls| <= |plans|
    && forall k :: 0 <= k < |calls| && calls[k].Ok? ==>
         PerMonitor(calls[k].value, index.monitors, plans[k].block, plans[k].indices, CallScan(d, src, plans[k].block))
  }

  ghost predicate SomeFailed(calls: seq<Result<seq<Decoded>>>) {
    exists k :: 0 <= k < |calls| && calls[k].Err?
  }

  lemma OneMoreCalls(d: Decoders, src: Source, index: MonitorIndex, plans: seq<BlockPlan>, calls: seq<Result<seq<Decoded>>>,
                     more: Result<seq<Decoded>>)
    requires |calls| < |plans| && CallsPrepared(d, src, index, plans, calls)
    requires more.Ok? ==>
               var plan := plans[|calls|];
               PerMonitor(more.value, index.monitors, plan.block, plan.indices, CallScan(d, src, plan.block))
    ensures CallsPrepared(d, src, index, plans, calls + [more])
    ensures SomeFailed(calls + [more]) <==> SomeFailed(calls) || more.Err?
  {
    var longer := calls + [more];
    assert forall k :: 0 <= k < |calls| ==> longer[k] == calls[k];
    assert longer[|calls|] == more;
  }

  /** The call side of a window: one entry per plan, in order; a failed block fails alone. */
  method PrepareWindowCalls(d: Decoders, node: Endpoint, cache: BlockCache, plans: seq<BlockPlan>, index: MonitorIndex)
    returns (calls: seq<Result<seq<Decoded>>>)
    requires ValidIndex(index) && DistinctIds(index.monitors) && cache.Consistent(node.src)
    requires SoundPlans(plans, index)
    modifies cache, node`failed, node`requests
    ensures cache.Consistent(node.src)
    ensures |calls| == |plans| && CallsPrepared(d, node.src, index, plans, calls)
    ensures old(node.failed) || (Healthy(d, index) && SomeFailed(calls)) ==> node.failed
  {
    calls := [];
    while |calls| < |plans|
      invariant cache.Consistent(node.src)
      invariant CallsPrepared(d, node.src, index, plans, calls)
      invariant old(node.failed) || (Healthy(d, index) && SomeFailed(calls)) ==> node.failed
    {
      var prepared := PrepareCalls(d, node, cache, plans[|calls|], index);
      OneMoreCalls(d, node.src, index, plans, calls, prepared);
      calls := calls + [prepared];
    }
  }

  /** Every planned monitor's events are in its block's bucket. */
  lemma BucketServes(d: Decoders, src: Source, plans: seq<BlockPlan>, k: nat, query: LogQuery, index: MonitorIndex, logs: seq<Log>, j: nat)
    requires ValidSource(src) && LogsAnswer(src, query, logs)
    requires k < |plans| && SoundPlans(plans, index)
    requires query.first == plans[0].block && query.last == plans[|plans| - 1].block
    requires WindowTargets(query.targets, plans, index)
    requires IsPlanned(index.monitors, j, plans[k].block, plans[k].indices)
    ensures multiset(ScanEvents(d, index.monitors[j], plans[k].block, OfBlock(logs, plans[k].block))) ==
            multiset(ScanEvents(d, index.monitors[j], plans[k].block, src.logs(plans[k].block)))
  {
    if index.monitors[j].target.EventTarget? {
      PlannedTarget(plans, k, index, query.targets, j);
    }
    assert plans[0].block <= plans[k].block <= plans[|plans| - 1].block;
    WindowLosesNothing(d, src, query, logs, index.monitors[j], plans[k].block);
  }

  ghost predicate AllPrepared(d: Decoders, src: Source, index: MonitorIndex, plans: seq<BlockPlan>, prepared: seq<Result<Prepared>>) {
    && |prepared| <= |plans|
    && forall k :: 0 <= k < |prepared| && prepared[k].Ok? ==> PreparedAt(d, src, index, plans[k], prepared[k].value)
  }

  /** The node's answers are never malformed for us. */
  lemma BucketClean(src: Source, query: LogQuery, logs: seq<Log>, log: Log)
    requires ValidSource(src) && LogsAnswer(src, query, logs) && log in logs
    ensures log.block.Some? && query.first <= log.block.value <= query.last && Clean(log, log.block.value)
  {
    assert log in multiset(logs);
    assert log in MatchingLogs(src, query.first, query.last, query.targets);
    MatchingClean(src, query.first, query.last, query.targets, log);
  }

  lemma {:induction false} MatchingClean(src: Source, first: int, last: int, targets: set<LogTarget>, log: Log)
    requires ValidSource(src) && 0 <= first && last <= U64_MAX && log in MatchingLogs(src, first, last, targets)
    ensures log.block.Some? && first <= log.block.value <= last && Clean(log, log.block.value)
    decreases last - first
  {
    if log in MatchingLogs(src, first, last - 1, targets) {
      MatchingClean(src, first, last - 1, targets, log);
    } else {
      KeepMembers(src.logs(last), Aimed(targets));
      assert Clean(log, last);
    }
  }

  lemma BlockLogsClean(src: Source, query: LogQuery, logs: seq<Log>, number: U64)
    requires ValidSource(src) && LogsAnswer(src, query, logs)
    ensures forall log :: log in OfBlock(logs, number) ==> Clean(log, number)
  {
    KeepMembers(logs, InBlock(number));
    forall log | log in OfBlock(logs, number)
      ensures Clean(log, number)
    {
      BucketClean(src, query, logs, log);
    }
  }

  /** One block of a window: its calls, and the events in its bucket. */
  method FinishBlock(d: Decoders, src: Source, plans: seq<BlockPlan>, k: nat, query: LogQuery, index: MonitorIndex,
                     calls: Result<seq<Decoded>>, ghost logs: seq<Log>, bucket: seq<Log>)
    returns (entry: Result<Prepared>)
    requires ValidSource(src) && ValidIndex(index) && DistinctIds(index.monitors)
    requires k < |plans| && SoundPlans(plans, index)
    requires query.first == plans[0].block && query.last == plans[|plans| - 1].block
    requires WindowTargets(query.targets, plans, index)
    requires calls.Ok? ==> PerMonitor(calls.value, index.monitors, plans[k].block, plans[k].indices, CallScan(d, src, plans[k].block))
    requires LogsAnswer(src, query, logs) && bucket == OfBlock(logs, plans[k].block)
    ensures entry.Ok? ==> PreparedAt(d, src, index, plans[k], entry.value)
    ensures entry.Err? && Healthy(d, index) ==> calls.Err?
  {
    if calls.Err? {
      return Err;
    }
    forall j | 0 <= j < |index.monitors| && IsPlanned(index.monitors, j, plans[k].block, plans[k].indices)
      ensures multiset(ScanEvents(d, index.monitors[j], plans[k].block, bucket)) ==
              multiset(ScanEvents(d, index.monitors[j], plans[k].block, src.logs(plans[k].block)))
    {
      BucketServes(d, src, plans, k, query, index, logs, j);
    }
    BlockLogsClean(src, query, logs, plans[k].block);
    entry := FinishPrepared(d, src, index, plans[k], calls.value, bucket);
  }

  /** One entry of a finished window. */
  ghost predicate EntryFor(d: Decoders, src: Source, index: MonitorIndex, plan: BlockPlan, calls: Result<seq<Decoded>>,
                           entry: Result<Prepared>)
  {
    (entry.Ok? ==> PreparedAt(d, src, index, plan, entry.value)) && (entry.Err? && Healthy(d, index) ==> calls.Err?)
  }

  ghost predicate EntriesFor(d: Decoders, src: Source, index: MonitorIndex, plans: seq<BlockPlan>, calls: seq<Result<seq<Decoded>>>,
                             prepared: seq<Result<Prepared>>)
  {
    && |prepared| <= |plans| == |calls|
    && forall k {:trigger EntryFor(d, src, index, plans[k], calls[k], prepared[k])} ::
         0 <= k < |prepared| ==> EntryFor(d, src, index, plans[k], calls[k], prepared[k])
  }

  lemma OneMoreEntry(d: Decoders, src: Source, index: MonitorIndex, plans: seq<BlockPlan>, calls: seq<Result<seq<Decoded>>>,
                     prepared: seq<Result<Prepared>>, entry: Result<Prepared>)
    requires EntriesFor(d, src, index, plans, calls, prepared) && |prepared| < |plans|
    requires EntryFor(d, src, index, plans[|prepared|], calls[|prepared|], entry)
    ensures EntriesFor(d, src, index, plans, calls, prepared + [entry])
  {
  }

  lemma EntriesPrepared(d: Decoders, src: Source, index: MonitorIndex, plans: seq<BlockPlan>, calls: seq<Result<seq<Decoded>>>,
                        prepared: seq<Result<Prepared>>)
    requires EntriesFor(d, src, index, plans, calls, prepared)
    ensures AllPrepared(d, src, index, plans, prepared)
    ensures Healthy(d, index) ==> forall k :: 0 <= k < |prepared| && prepared[k].Err? ==> calls[k].Err?
  {
    assert forall k :: 0 <= k < |prepared| ==> EntryFor(d, src, index, plans[k], calls[k], prepared[k]);
  }

  method FinishWindow(d: Decoders, src: Source, plans: seq<BlockPlan>, query: LogQuery, index: MonitorIndex,
                      calls: seq<Result<seq<Decoded>>>, ghost logs: seq<Log>, buckets: map<U64, seq<Log>>)
    returns (prepared: seq<Result<Prepared>>)
    requires ValidSource(src) && ValidIndex(index) && DistinctIds(index.monitors)
    requires plans != [] && SoundPlans(plans, index)
    requires query.first == plans[0].block && query.last == plans[|plans| - 1].block
    requires WindowTargets(query.targets, plans, index)
    requires |calls| == |plans| && CallsPrepared(d, src, index, plans, calls)
    requires LogsAnswer(src, query, logs) && BucketsOf(buckets, logs)
    ensures |prepared| == |plans| && EntriesFor(d, src, index, plans, calls, prepared)
  {
    prepared := [];
    while |prepared| < |plans|
      invariant EntriesFor(d, src, index, plans, calls, prepared)
    {
      var k := |prepared|;
      var entry := FinishBlock(d, src, plans, k, query, index, calls[k], logs, Bucket(buckets, plans[k].block));
      OneMoreEntry(d, src, index, plans, calls, prepared, entry);
      prepared := prepared + [entry];
    }
  }

  /** Prepares every block of a window, calls block by block and events from one ranged request. A
      failed log request fails the window; a failed block only its own entry. Only the node can fail
      either. */
  method PrepareEventWindow(d: Decoders, node: Endpoint, cache: BlockCache, plans: seq<BlockPlan>, query: LogQuery, index: MonitorIndex)
    returns (r: Result<seq<Result<Prepared>>>)
    requires ValidSource(node.src) && ValidIndex(index) && DistinctIds(index.monitors) && cache.Consistent(node.src)
    requires plans != [] && SoundPlans(plans, index)
    requires query.first == plans[0].block && query.last == plans[|plans| - 1].block
    requires WindowTargets(query.targets, plans, index)
    modifies cache, node`failed, node`requests
    ensures cache.Consistent(node.src)
    ensures r.Ok? ==> |r.value| == |plans| && AllPrepared(d, node.src, index, plans, r.value)
    ensures old(node.failed) || r.Err? ==> node.failed
    ensures Healthy(d, index) && r.Ok? && (exists k :: 0 <= k < |r.value| && r.value[k].Err?) ==> node.failed
  {
    var calls := PrepareWindowCalls(d, node, cache, plans, index);
    var fetched := node.FetchLogs(query);
    if fetched.Err? {
      return Err;
    }
    var bucketed := BucketLogs(query, fetched.value);
    forall log | log in fetched.value
      ensures WellPlaced(query, log)
    {
      BucketClean(node.src, query, fetched.value, log);
    }
    var prepared := FinishWindow(d, node.src, plans, query, index, calls, fetched.value, bucketed.value);
    EntriesPrepared(d, node.src, index, plans, calls, prepared);
    r := Ok(prepared);
  }
}
