/** Exact log filters: the wanted (emitter, signature) pairs cut into address-by-signature products, and
    the log request built from them. */
module ExactFilters {
  import opened Domain
  import opened Results
  import opened Preparer
  import opened LogRequests

  function AddressesOf(targets: set<LogTarget>): set<Address> {
    set t | t in targets :: t.address
  }

  function TopicsOf(targets: set<LogTarget>): set<Hash> {
    set t | t in targets :: t.topic0
  }

  /** The filters' products are pairwise disjoint and together exactly the targets. */
  ghost predicate Partitions(filters: seq<LogFilter>, targets: set<LogTarget>) {
    && (forall i, j :: 0 <= i < j < |filters| ==> Pairs(filters[i]) !! Pairs(filters[j]))
    && (forall i :: 0 <= i < |filters| ==> Pairs(filters[i]) <= targets)
    && (forall t :: t in targets ==> exists i :: 0 <= i < |filters| && t in Pairs(filters[i]))
  }

  // ---- Grouping targets by one side of the pair ----

  /** Each address with exactly the signatures it is wanted with. */
  ghost predicate ByAddress(groups: map<Address, seq<Hash>>, targets: set<LogTarget>) {
    && groups.Keys == AddressesOf(targets)
    && forall a, t :: a in groups ==> (t in groups[a] <==> LogTarget(a, t) in targets)
  }

  ghost predicate ByTopic(groups: map<Hash, seq<Address>>, targets: set<LogTarget>) {
    && groups.Keys == TopicsOf(targets)
    && forall a, t :: t in groups ==> (a in groups[t] <==> LogTarget(a, t) in targets)
  }

  function GroupAt<K, V>(groups: map<K, seq<V>>, key: K): seq<V> {
    if key in groups then groups[key] else []
  }

  lemma AddByAddress(groups: map<Address, seq<Hash>>, targets: set<LogTarget>, more: LogTarget)
    requires ByAddress(groups, targets)
    ensures ByAddress(groups[more.address := GroupAt(groups, more.address) + [more.topic0]], targets + {more})
  {
  }

  lemma AddByTopic(groups: map<Hash, seq<Address>>, targets: set<LogTarget>, more: LogTarget)
    requires ByTopic(groups, targets)
    ensures ByTopic(groups[more.topic0 := GroupAt(groups, more.topic0) + [more.address]], targets + {more})
  {
  }

  method GroupTargets(targets: set<LogTarget>) returns (byAddress: map<Address, seq<Hash>>, byTopic: map<Hash, seq<Address>>)
    ensures ByAddress(byAddress, targets) && ByTopic(byTopic, targets)
  {
    byAddress, byTopic := map[], map[];
    var rest := targets;
    assert targets - rest == {};
    while rest != {}
      invariant rest <= targets
      invariant ByAddress(byAddress, targets - rest) && ByTopic(byTopic, targets - rest)
      decreases rest
    {
      var t :| t in rest;
      AddByAddress(byAddress, targets - rest, t);
      AddByTopic(byTopic, targets - rest, t);
      assert targets - (rest - {t}) == targets - rest + {t};
      byAddress := byAddress[t.address := GroupAt(byAddress, t.address) + [t.topic0]];
      byTopic := byTopic[t.topic0 := GroupAt(byTopic, t.topic0) + [t.address]];
      rest := rest - {t};
    }
    assert targets - {} == targets;
  }

  // ---- One filter per key ----

  predicate Distinct<K(==)>(keys: seq<K>) {
    forall i, j :: 0 <= i < j < |keys| ==> keys[i] != keys[j]
  }

  method ListKeys<K(==)>(keys: set<K>) returns (list: seq<K>)
    ensures Distinct(list) && |list| == |keys| && forall k :: k in list <==> k in keys
  {
    list := [];
    var rest := keys;
    while rest != {}
      invariant rest <= keys && |list| + |rest| == |keys|
      invariant Distinct(list) && forall k :: k in list <==> k in keys && k !in rest
      decreases rest
    {
      var k :| k in rest;
      list := list + [k];
      rest := rest - {k};
    }
  }

  function AddressFilter(groups: map<Address, seq<Hash>>, a: Address): LogFilter {
    LogFilter([a], GroupAt(groups, a))
  }

  /** The product of one address with its signatures is that address's share of the targets. */
  lemma AddressPairs(groups: map<Address, seq<Hash>>, targets: set<LogTarget>, a: Address, t: LogTarget)
    requires ByAddress(groups, targets)
    ensures t in Pairs(AddressFilter(groups, a)) <==> t in targets && t.address == a
  {
  }

  lemma AddressFiltersPartition(keys: seq<Address>, groups: map<Address, seq<Hash>>, targets: set<LogTarget>, filters: seq<LogFilter>)
    requires ByAddress(groups, targets) && Distinct(keys) && forall a :: a in keys <==> a in groups
    requires |filters| == |keys| && forall i :: 0 <= i < |keys| ==> filters[i] == AddressFilter(groups, keys[i])
    ensures Partitions(filters, targets)
  {
    forall i, t | 0 <= i < |filters|
      ensures t in Pairs(filters[i]) <==> t in targets && t.address == keys[i]
    {
      AddressPairs(groups, targets, keys[i], t);
    }
    forall t | t in targets
      ensures exists i :: 0 <= i < |filters| && t in Pairs(filters[i])
    {
      assert t.address in AddressesOf(targets);
      var i :| 0 <= i < |keys| && keys[i] == t.address;
      assert t in Pairs(filters[i]);
    }
  }

  function TopicFilter(groups: map<Hash, seq<Address>>, topic: Hash): LogFilter {
    LogFilter(GroupAt(groups, topic), [topic])
  }

  /** The product of one signature with its addresses is that signature's share of the targets. */
  lemma TopicPairs(groups: map<Hash, seq<Address>>, targets: set<LogTarget>, topic: Hash, t: LogTarget)
    requires ByTopic(groups, targets)
    ensures t in Pairs(TopicFilter(groups, topic)) <==> t in targets && t.topic0 == topic
  {
  }

  lemma TopicFiltersPartition(keys: seq<Hash>, groups: map<Hash, seq<Address>>, targets: set<LogTarget>, filters: seq<LogFilter>)
    requires ByTopic(groups, targets) && Distinct(keys) && forall t :: t in keys <==> t in groups
    requires |filters| == |keys| && forall i :: 0 <= i < |keys| ==> filters[i] == TopicFilter(groups, keys[i])
    ensures Partitions(filters, targets)
  {
    forall i, t | 0 <= i < |filters|
      ensures t in Pairs(filters[i]) <==> t in targets && t.topic0 == keys[i]
    {
      TopicPairs(groups, targets, keys[i], t);
    }
    forall t | t in targets
      ensures exists i :: 0 <= i < |filters| && t in Pairs(filters[i])
    {
      assert t.topic0 in TopicsOf(targets);
      var i :| 0 <= i < |keys| && keys[i] == t.topic0;
      assert t in Pairs(filters[i]);
    }
  }

  method FiltersByAddress(groups: map<Address, seq<Hash>>, ghost targets: set<LogTarget>) returns (filters: seq<LogFilter>)
    requires ByAddress(groups, targets)
    ensures Partitions(filters, targets) && |filters| == |AddressesOf(targets)|
  {
    var keys := ListKeys(groups.Keys);
    filters := seq(|keys|, i requires 0 <= i < |keys| => AddressFilter(groups, keys[i]));
    AddressFiltersPartition(keys, groups, targets, filters);
  }

  method FiltersByTopic(groups: map<Hash, seq<Address>>, ghost targets: set<LogTarget>) returns (filters: seq<LogFilter>)
    requires ByTopic(groups, targets)
    ensures Partitions(filters, targets) && |filters| == |TopicsOf(targets)|
  {
    var keys := ListKeys(groups.Keys);
    filters := seq(|keys|, i requires 0 <= i < |keys| => TopicFilter(groups, keys[i]));
    TopicFiltersPartition(keys, groups, targets, filters);
  }

  /** One filter per emitter or one per signature, whichever needs fewer. */
  method ExactLogFilters(targets: set<LogTarget>) returns (filters: seq<LogFilter>)
    ensures Partitions(filters, targets)
    ensures |filters| == Min(|AddressesOf(targets)|, |TopicsOf(targets)|)
  {
    var byAddress, byTopic := GroupTargets(targets);
    assert byAddress.Keys == AddressesOf(targets) && byTopic.Keys == TopicsOf(targets);
    if |byAddress.Keys| <= |byTopic.Keys| {
      filters := FiltersByAddress(byAddress, targets);
    } else {
      filters := FiltersByTopic(byTopic, targets);
    }
  }

  // ---- Joining the filters' answers ----

  lemma WantedUnion(src: Source, block: U64, a: set<LogTarget>, b: set<LogTarget>)
    requires a !! b
    ensures multiset(WantedIn(src, block, a + b)) == multiset(WantedIn(src, block, a)) + multiset(WantedIn(src, block, b))
  {
    forall log
      ensures multiset(WantedIn(src, block, a + b))[log] ==
              multiset(WantedIn(src, block, a))[log] + multiset(WantedIn(src, block, b))[log]
    {
      KeepMultiset(src.logs(block), Aimed(a + b), log);
      KeepMultiset(src.logs(block), Aimed(a), log);
      KeepMultiset(src.logs(block), Aimed(b), log);
    }
  }

  /** How often the log is wanted in the block, and in the blocks `first..last`. */
  ghost function CountIn(src: Source, n: U64, targets: set<LogTarget>, log: Log): nat {
    multiset(WantedIn(src, n, targets))[log]
  }

  ghost function Count(src: Source, first: int, last: int, targets: set<LogTarget>, log: Log): nat
    requires 0 <= first && last <= U64_MAX
  {
    multiset(MatchingLogs(src, first, last, targets))[log]
  }

  lemma CountStep(src: Source, first: int, last: int, targets: set<LogTarget>, log: Log)
    requires 0 <= first && last <= U64_MAX
    ensures Count(src, first, last, targets, log) ==
            if first > last then 0 else Count(src, first, last - 1, targets, log) + CountIn(src, last, targets, log)
  {
  }

  ghost predicate BlockJoins(src: Source, n: U64, both: set<LogTarget>, a: set<LogTarget>, b: set<LogTarget>, log: Log) {
    CountIn(src, n, both, log) == CountIn(src, n, a, log) + CountIn(src, n, b, log)
  }

  /** The same over `n` blocks. */
  ghost predicate BlocksJoin(src: Source, first: nat, n: nat, both: set<LogTarget>, a: set<LogTarget>, b: set<LogTarget>, log: Log)
    requires first + n <= U64_MAX + 1
  {
    var last := first + n - 1;
    Count(src, first, last, both, log) == Count(src, first, last, a, log) + Count(src, first, last, b, log)
  }

  lemma JoinNothing(src: Source, first: nat, both: set<LogTarget>, a: set<LogTarget>, b: set<LogTarget>, log: Log)
    requires first <= U64_MAX + 1
    ensures BlocksJoin(src, first, 0, both, a, b, log)
  {
    CountStep(src, first, first - 1, both, log);
    CountStep(src, first, first - 1, a, log);
    CountStep(src, first, first - 1, b, log);
  }

  lemma JoinBlock(src: Source, first: nat, n: nat, both: set<LogTarget>, a: set<LogTarget>, b: set<LogTarget>, log: Log)
    requires first + n <= U64_MAX && BlocksJoin(src, first, n, both, a, b, log) && BlockJoins(src, first + n, both, a, b, log)
    ensures BlocksJoin(src, first, n + 1, both, a, b, log)
  {
    CountStep(src, first, first + n, both, log);
    CountStep(src, first, first + n, a, log);
    CountStep(src, first, first + n, b, log);
  }

  lemma {:induction false} JoinBlocks(src: Source, first: nat, n: nat, both: set<LogTarget>, a: set<LogTarget>, b: set<LogTarget>, log: Log)
    requires first + n <= U64_MAX + 1
    requires forall k: U64 :: BlockJoins(src, k, both, a, b, log)
    ensures BlocksJoin(src, first, n, both, a, b, log)
    decreases n
  {
    if n == 0 {
      JoinNothing(src, first, both, a, b, log);
    } else {
      JoinBlocks(src, first, n - 1, both, a, b, log);
      JoinBlock(src, first, n - 1, both, a, b, log);
    }
  }

  lemma UnionCount(src: Source, first: int, last: int, a: set<LogTarget>, b: set<LogTarget>, log: Log)
    requires a !! b && 0 <= first && last <= U64_MAX
    ensures Count(src, first, last, a + b, log) == Count(src, first, last, a, log) + Count(src, first, last, b, log)
  {
    if first > last {
      CountStep(src, first, last, a + b, log);
      CountStep(src, first, last, a, log);
      CountStep(src, first, last, b, log);
    } else {
      forall n: U64
        ensures BlockJoins(src, n, a + b, a, b, log)
      {
        WantedUnion(src, n, a, b);
      }
      JoinBlocks(src, first, last - first + 1, a + b, a, b, log);
    }
  }

  /** Disjoint target sets ask for disjoint logs, and their union for both. */
  lemma MatchingUnion(src: Source, first: int, last: int, a: set<LogTarget>, b: set<LogTarget>)
    requires a !! b && 0 <= first && last <= U64_MAX
    ensures multiset(MatchingLogs(src, first, last, a + b)) ==
            multiset(MatchingLogs(src, first, last, a)) + multiset(MatchingLogs(src, first, last, b))
  {
    forall log
      ensures multiset(MatchingLogs(src, first, last, a + b))[log] ==
              multiset(MatchingLogs(src, first, last, a))[log] + multiset(MatchingLogs(src, first, last, b))[log]
    {
      UnionCount(src, first, last, a, b, log);
    }
  }

  /** `covered` holds the targets of the filters outside `rest`. */
  ghost predicate Covers(covered: set<LogTarget>, filters: seq<LogFilter>, targets: set<LogTarget>, rest: set<nat>) {
    && covered <= targets
    && (forall i :: i in rest && i < |filters| ==> covered !! Pairs(filters[i]))
    && (forall t :: t in targets ==> t in covered || AskedBy(t, filters, rest))
  }

  ghost predicate AskedBy(t: LogTarget, filters: seq<LogFilter>, rest: set<nat>) {
    exists i :: i in rest && i < |filters| && t in Pairs(filters[i])
  }

  lemma CoverMore(covered: set<LogTarget>, filters: seq<LogFilter>, targets: set<LogTarget>, rest: set<nat>, i: nat)
    requires Partitions(filters, targets) && i < |filters| && i in rest && Covers(covered, filters, targets, rest)
    ensures Covers(covered + Pairs(filters[i]), filters, targets, rest - {i})
  {
    forall k | k in rest - {i} && k < |filters|
      ensures covered + Pairs(filters[i]) !! Pairs(filters[k])
    {
      assert if k < i then Pairs(filters[k]) !! Pairs(filters[i]) else Pairs(filters[i]) !! Pairs(filters[k]);
    }
    forall t | t in targets && t !in covered + Pairs(filters[i])
      ensures AskedBy(t, filters, rest - {i})
    {
      assert AskedBy(t, filters, rest);
    }
  }

  lemma CoverNone(filters: seq<LogFilter>, targets: set<LogTarget>)
    requires Partitions(filters, targets)
    ensures Covers({}, filters, targets, UpTo(|filters|))
  {
  }

  // ---- Sorting ----

  /** `Option` order: a missing number first. */
  predicate AtMost(a: Option<U64>, b: Option<U64>) {
    a.None? || (b.Some? && a.value <= b.value)
  }

  predicate KeyAtMost(a: Log, b: Log) {
    if a.block == b.block then AtMost(a.logIndex, b.logIndex) else AtMost(a.block, b.block)
  }

  predicate SortedByKey(logs: seq<Log>) {
    forall i, j :: 0 <= i < j < |logs| ==> KeyAtMost(logs[i], logs[j])
  }

  /** Behind everything at most `log`. */
  function Position(log: Log, logs: seq<Log>): (p: nat)
    ensures p <= |logs| && (forall i :: 0 <= i < p ==> KeyAtMost(logs[i], log)) && (p < |logs| ==> KeyAtMost(log, logs[p]))
  {
    PositionFrom(log, logs, 0)
  }

  function PositionFrom(log: Log, logs: seq<Log>, from: nat): (p: nat)
    requires from <= |logs| && forall i :: 0 <= i < from ==> KeyAtMost(logs[i], log)
    ensures p <= |logs| && (forall i :: 0 <= i < p ==> KeyAtMost(logs[i], log)) && (p < |logs| ==> KeyAtMost(log, logs[p]))
    decreases |logs| - from
  {
    if from < |logs| && KeyAtMost(logs[from], log) then PositionFrom(log, logs, from + 1) else from
  }

  function SortLogs(logs: seq<Log>): (r: seq<Log>)
    ensures SortedByKey(r) && multiset(r) == multiset(logs)
  {
    if logs == [] then []
    else
      var init, last := logs[..|logs| - 1], logs[|logs| - 1];
      var rest := SortLogs(init);
      var p := Position(last, rest);
      InsertKeeps(rest, p, last);
      assert logs == init + [last];
      rest[..p] + [last] + rest[p..]
  }

  lemma InsertKeeps(logs: seq<Log>, p: nat, log: Log)
    requires SortedByKey(logs) && p <= |logs|
    requires (forall i :: 0 <= i < p ==> KeyAtMost(logs[i], log)) && (p < |logs| ==> KeyAtMost(log, logs[p]))
    ensures SortedByKey(logs[..p] + [log] + logs[p..])
    ensures multiset(logs[..p] + [log] + logs[p..]) == multiset(logs) + multiset{log}
  {
    forall j | p <= j < |logs|
      ensures KeyAtMost(log, logs[j])
    {
      if j > p {
        KeyTransitive(log, logs[p], logs[j]);
      }
    }
    assert logs == logs[..p] + logs[p..];
    SpliceSorted(logs, p, log);
  }

  lemma KeyTransitive(a: Log, b: Log, c: Log)
    requires KeyAtMost(a, b) && KeyAtMost(b, c)
    ensures KeyAtMost(a, c)
  {
  }

  lemma SpliceSorted(logs: seq<Log>, p: nat, log: Log)
    requires SortedByKey(logs) && p <= |logs|
    requires forall i :: 0 <= i < p ==> KeyAtMost(logs[i], log)
    requires forall j :: p <= j < |logs| ==> KeyAtMost(log, logs[j])
    ensures SortedByKey(logs[..p] + [log] + logs[p..])
  {
  }

  function UpTo(n: nat): (r: set<nat>)
    ensures forall i: nat :: i in r <==> i < n
  {
    if n == 0 then {} else UpTo(n - 1) + {n - 1}
  }

  /** One filter after the other, in any order; any failure fails the request. */
  method FetchFilters(node: LogNode, requested: Range, filters: seq<LogFilter>, ghost targets: set<LogTarget>) returns (r: Result<seq<Log>>)
    requires ValidSource(node.src) && Partitions(filters, targets)
    modifies node
    ensures r.Ok? ==> multiset(r.value) == multiset(MatchingLogs(node.src, requested.start, requested.end, targets))
    ensures r.Err? ==> node.GaveReason()
  {
    var logs: seq<Log> := [];
    var rest := UpTo(|filters|);
    ghost var covered: set<LogTarget> := {};
    CoverNone(filters, targets);
    NothingMatches(node.src, requested.start, requested.end);
    while rest != {}
      invariant forall i :: i in rest ==> i < |filters|
      invariant Covers(covered, filters, targets, rest)
      invariant multiset(logs) == multiset(MatchingLogs(node.src, requested.start, requested.end, covered))
      decreases rest
    {
      var i :| i in rest;
      var fetched := AdaptiveFilterLogs(node, requested, filters[i]);
      if fetched.Err? {
        return Err;
      }
      CoverMore(covered, filters, targets, rest, i);
      MatchingUnion(node.src, requested.start, requested.end, covered, Pairs(filters[i]));
      covered := covered + Pairs(filters[i]);
      logs := logs + fetched.value;
      rest := rest - {i};
    }
    assert covered == targets;
    r := Ok(logs);
  }

  lemma {:induction false} NothingMatches(src: Source, first: int, last: int)
    requires 0 <= first && last <= U64_MAX
    ensures MatchingLogs(src, first, last, {}) == []
    decreases last - first
  {
    if first > last {
    } else {
      NothingMatches(src, first, last - 1);
      KeepUniform(src.logs(last), Aimed({}), false);
    }
  }

  /** A lower block number, or the same one and no higher log index. */
  predicate InOrder(a: Log, b: Log) {
    && a.block.Some? && b.block.Some? && a.logIndex.Some? && b.logIndex.Some?
    && (a.block.value < b.block.value || (a.block.value == b.block.value && a.logIndex.value <= b.logIndex.value))
  }

  predicate InChainOrder(logs: seq<Log>) {
    forall i, j :: 0 <= i < j < |logs| ==> InOrder(logs[i], logs[j])
  }

  /** A finalized chain's logs have numbers, so sorting by key is chain order. */
  lemma SortedInChainOrder(src: Source, query: LogQuery, logs: seq<Log>)
    requires ValidSource(src) && LogsAnswer(src, query, logs) && SortedByKey(logs)
    ensures InChainOrder(logs)
  {
    forall i, j | 0 <= i < j < |logs|
      ensures InOrder(logs[i], logs[j])
    {
      BucketClean(src, query, logs, logs[i]);
      BucketClean(src, query, logs, logs[j]);
      assert KeyAtMost(logs[i], logs[j]);
    }
  }

  /** The block source's log request: on success exactly the wanted logs, sorted by block and log index. */
  method AdaptiveLogs(node: LogNode, query: LogQuery) returns (r: Result<seq<Log>>)
    requires ValidSource(node.src) && query.first <= query.last
    modifies node
    ensures r.Ok? ==> LogsAnswer(node.src, query, r.value) && SortedByKey(r.value) && InChainOrder(r.value)
    ensures r.Err? ==> node.GaveReason()
  {
    if query.targets == {} {
      NothingMatches(node.src, query.first, query.last);
      return Ok([]);
    }
    var filters := ExactLogFilters(query.targets);
    var requested: Range := BlockRange(query.first, query.last);
    var fetched := FetchFilters(node, requested, filters, query.targets);
    if fetched.Err? {
      return Err;
    }
    var sorted := SortLogs(fetched.value);
    SortedInChainOrder(node.src, query, sorted);
    r := Ok(sorted);
  }
}
