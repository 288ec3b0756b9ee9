/** Ranged log requests over JSON-RPC: targets are cut into exact address-by-topic filters, and a range
    the node finds too large is bisected, so that a success is exactly the wanted logs, sorted. */
module LogRequests {
  import opened Domain
  import opened Results
  import opened Preparer
  import opened BlockDecoder

  datatype Reply<+T> =
    | Answer(value: T)
    | RangeLimited
    | OtherError

  datatype BlockRange = BlockRange(start: U64, end: U64)

  /** Constructed only in order. */
  type Range = r: BlockRange | r.start <= r.end witness BlockRange(0, 0)

  function Size(r: Range): nat {
    r.end - r.start + 1
  }

  /** A node request: any of the addresses with any of the signatures. */
  datatype LogFilter = LogFilter(addresses: seq<Address>, topics: seq<Hash>)

  function Pairs(f: LogFilter): set<LogTarget> {
    set a, t | a in f.addresses && t in f.topics :: LogTarget(a, t)
  }

  // ---- Bisection ----

  lemma {:induction false} MatchingJoin(src: Source, first: int, middle: int, last: int, targets: set<LogTarget>)
    requires 0 <= first <= middle <= last <= U64_MAX + 1
    ensures MatchingLogs(src, first, last - 1, targets) ==
            MatchingLogs(src, first, middle - 1, targets) + MatchingLogs(src, middle, last - 1, targets)
    decreases last
  {
    if middle >= last {
    } else {
      MatchingJoin(src, first, middle, last - 1, targets);
    }
  }

  predicate BlockOrdered(logs: seq<Log>) {
    forall i, j :: 0 <= i < j < |logs| ==> logs[i].block.Some? && logs[j].block.Some? && logs[i].block.value <= logs[j].block.value
  }

  /** Every log lies in the blocks from `first` up to but excluding `upto`. */
  predicate Within(logs: seq<Log>, first: int, upto: int) {
    forall log :: log in logs ==> log.block.Some? && first <= log.block.value < upto
  }

  lemma {:induction false} MatchingWithin(src: Source, first: int, last: int, targets: set<LogTarget>)
    requires ValidSource(src) && 0 <= first && last <= U64_MAX
    ensures Within(MatchingLogs(src, first, last, targets), first, last + 1)
    decreases last - first
  {
    if first > last {
    } else {
      MatchingWithin(src, first, last - 1, targets);
      KeepMembers(src.logs(last), Aimed(targets));
      forall log | log in WantedIn(src, last, targets)
        ensures log.block == Some(last)
      {
        assert Clean(log, last);
      }
    }
  }

  /** A node with its request history. It answers a request with exactly the matching logs, in its own
      order, which may be block order. */
  class LogNode {
    const src: Source
    ghost const ordered: bool
    ghost var history: seq<(Range, Reply<seq<Log>>)>

    constructor (src: Source, ghost ordered: bool)
      ensures this.src == src && this.ordered == ordered && history == []
    {
      this.src, this.ordered, history := src, ordered, [];
    }

    method AskLogs(range: Range, filter: LogFilter) returns (r: Reply<seq<Log>>)
      requires ValidSource(src)
      modifies this
      ensures history == old(history) + [(range, r)]
      ensures r.Answer? ==> multiset(r.value) == multiset(MatchingLogs(src, range.start, range.end, Pairs(filter)))
      ensures r.Answer? && ordered ==> BlockOrdered(r.value)
    {
      r := OtherError;
      if * {
        r := RangeLimited;
      } else if * {
        MatchingOrdered(src, range.start, range.end, Pairs(filter));
        r := Answer(MatchingLogs(src, range.start, range.end, Pairs(filter)));
      }
      history := history + [(range, r)];
    }

    /** The last request is the reason to give up: an error, or a single block found too large. */
    ghost predicate GaveReason()
      reads this
    {
      history != [] && (history[|history| - 1].1.OtherError? ||
                        (history[|history| - 1].1.RangeLimited? && history[|history| - 1].0.start == history[|history| - 1].0.end))
    }
  }

  lemma {:induction false} MatchingOrdered(src: Source, first: int, last: int, targets: set<LogTarget>)
    requires ValidSource(src) && 0 <= first && last <= U64_MAX
    ensures BlockOrdered(MatchingLogs(src, first, last, targets))
    decreases last - first
  {
    if first > last {
    } else {
      MatchingOrdered(src, first, last - 1, targets);
      MatchingWithin(src, first, last - 1, targets);
      MatchingWithin(src, last, last, targets);
      assert MatchingLogs(src, last, last, targets) == MatchingLogs(src, last, last - 1, targets) + WantedIn(src, last, targets);
      OrderedJoin(MatchingLogs(src, first, last - 1, targets), WantedIn(src, last, targets), first, last, last + 1);
    }
  }

  lemma OrderedJoin(a: seq<Log>, b: seq<Log>, first: int, middle: int, last: int)
    requires Within(a, first, middle) && Within(b, middle, last)
    requires first <= middle <= last
    requires BlockOrdered(a) && (BlockOrdered(b) || last == middle + 1)
    ensures BlockOrdered(a + b) && Within(a + b, first, last)
  {
  }

  /** From the top of the stack down, the pending ranges tile `from..end` without hole or overlap. */
  ghost predicate Tiles(pending: seq<Range>, from: int, end: int) {
    if pending == [] then from == end + 1
    else
      var top := pending[|pending| - 1];
      top.start == from && Tiles(pending[..|pending| - 1], top.end + 1, end)
  }

  /** The requests that may still be needed: at most `2n - 1` for a range of `n` blocks. */
  function Budget(pending: seq<Range>): nat {
    if pending == [] then 0 else Budget(pending[..|pending| - 1]) + 2 * Size(pending[|pending| - 1]) - 1
  }

  /** The top of the stack starts where fetching has come to and ends within the request. */
  lemma {:induction false} TopFits(pending: seq<Range>, from: int, end: int)
    requires Tiles(pending, from, end)
    ensures from <= end + 1
    ensures pending != [] ==> pending[|pending| - 1].start == from && pending[|pending| - 1].end <= end
  {
    if pending == [] {
    } else {
      TopFits(pending[..|pending| - 1], pending[|pending| - 1].end + 1, end);
    }
  }

  /** The pending ranges tile what is left from `from` on, and the requests so far leave room for those
      they may need. */
  ghost predicate Bisecting(requested: Range, pending: seq<Range>, requests: nat, from: int) {
    && requested.start <= from <= requested.end + 1 && Tiles(pending, from, requested.end)
    && requests + Budget(pending) <= 2 * Size(requested) - 1
  }

  /** Exactly the matching logs of the blocks `first..last`, each once; in block order when the node's own
      replies are. */
  ghost predicate Collected(src: Source, first: U64, targets: set<LogTarget>, ordered: bool, logs: seq<Log>, last: int)
    requires last <= U64_MAX
  {
    && multiset(logs) == multiset(MatchingLogs(src, first, last, targets))
    && Within(logs, first, last + 1)
    && (ordered ==> BlockOrdered(logs))
  }

  lemma CollectMore(src: Source, first: U64, last: int, range: Range, targets: set<LogTarget>, ordered: bool, logs: seq<Log>,
                    more: seq<Log>)
    requires ValidSource(src) && first <= range.start == last + 1 && Collected(src, first, targets, ordered, logs, last)
    requires multiset(more) == multiset(MatchingLogs(src, range.start, range.end, targets)) && (ordered ==> BlockOrdered(more))
    ensures Collected(src, first, targets, ordered, logs + more, range.end)
  {
    MatchingJoin(src, first, range.start, range.end + 1, targets);
    MatchingWithin(src, range.start, range.end, targets);
    SameMembers(more, MatchingLogs(src, range.start, range.end, targets), range.start, range.end + 1);
    if ordered {
      OrderedJoin(logs, more, first, range.start, range.end + 1);
    }
  }

  lemma SameMembers(logs: seq<Log>, others: seq<Log>, first: int, upto: int)
    requires multiset(logs) == multiset(others) && Within(others, first, upto)
    ensures Within(logs, first, upto)
  {
    forall log | log in logs
      ensures log in others
    {
      assert log in multiset(logs);
    }
  }

  lemma AnsweredStep(requested: Range, pending: seq<Range>, requests: nat, from: int)
    requires pending != [] && Bisecting(requested, pending, requests, from)
    ensures var range := pending[|pending| - 1];
            && range.start == from
            && Bisecting(requested, pending[..|pending| - 1], requests + 1, range.end + 1)
            && Budget(pending[..|pending| - 1]) < Budget(pending)
  {
    TopFits(pending, from, requested.end);
  }

  lemma SplitStep(requested: Range, pending: seq<Range>, requests: nat, from: int, left: Range, right: Range)
    requires pending != [] && Bisecting(requested, pending, requests, from)
    requires var range := pending[|pending| - 1];
             left.start == range.start && left.end + 1 == right.start && right.end == range.end
    ensures Bisecting(requested, pending[..|pending| - 1] + [right] + [left], requests + 1, from)
    ensures Budget(pending[..|pending| - 1] + [right] + [left]) < Budget(pending)
  {
  }

  lemma StartBisecting(src: Source, requested: Range, targets: set<LogTarget>, ordered: bool)
    ensures Bisecting(requested, [requested], 0, requested.start)
    ensures Collected(src, requested.start, targets, ordered, [], requested.start - 1)
  {
  }

  lemma NothingPending(requested: Range, requests: nat, from: int)
    requires Bisecting(requested, [], requests, from)
    ensures from == requested.end + 1 && requests <= 2 * (requested.end - requested.start) + 1
  {
  }

  /** The midpoint never overflows and both halves are ranges. */
  method Halve(range: Range) returns (left: Range, right: Range)
    requires range.start < range.end
    ensures left.start == range.start && left.end + 1 == right.start && right.end == range.end
    ensures Size(left) <= Size(right) + 1 && Size(right) <= Size(left)
  {
    var middle: U64 := range.start + (range.end - range.start) / 2;
    left := BlockRange(range.start, middle);
    right := BlockRange(middle + 1, range.end);
  }

  /** One request: the range on top of the stack is fetched, or replaced by its halves. */
  method RequestTop(node: LogNode, ghost requested: Range, filter: LogFilter, pending: seq<Range>, logs: seq<Log>,
                    ghost requests: nat, ghost last: int)
    returns (r: Result<(seq<Range>, seq<Log>)>, ghost reached: int)
    requires ValidSource(node.src) && pending != [] && Bisecting(requested, pending, requests, last + 1)
    requires Collected(node.src, requested.start, Pairs(filter), node.ordered, logs, last)
    modifies node
    ensures |node.history| == |old(node.history)| + 1 && requests + 1 <= 2 * Size(requested) - 1
    ensures r.Ok? ==> Bisecting(requested, r.value.0, requests + 1, reached + 1) && Budget(r.value.0) < Budget(pending)
    ensures r.Ok? ==> Collected(node.src, requested.start, Pairs(filter), node.ordered, r.value.1, reached)
    ensures r.Err? <==> node.GaveReason()
  {
    var range, rest := pending[|pending| - 1], pending[..|pending| - 1];
    reached := last;
    AnsweredStep(requested, pending, requests, last + 1);
    var reply := node.AskLogs(range, filter);
    match reply
    case Answer(fetched) =>
      CollectMore(node.src, requested.start, last, range, Pairs(filter), node.ordered, logs, fetched);
      reached := range.end;
      r := Ok((rest, logs + fetched));
    case RangeLimited =>
      if range.start == range.end {
        return Err, reached;
      }
      var left, right := Halve(range);
      SplitStep(requested, pending, requests, last + 1, left, right);
      r := Ok((rest + [right] + [left], logs));
    case OtherError =>
      r := Err;
  }

  /** Fetches one filter's logs, bisecting ranges the node refuses as too large: at most `2n - 1`
      requests for `n` blocks, and failure only on another error or on a single block found too large. */
  method AdaptiveFilterLogs(node: LogNode, requested: Range, filter: LogFilter) returns (r: Result<seq<Log>>)
    requires ValidSource(node.src)
    modifies node
    ensures |old(node.history)| < |node.history| <= |old(node.history)| + 2 * (requested.end - requested.start) + 1
    ensures r.Ok? ==> Collected(node.src, requested.start, Pairs(filter), node.ordered, r.value, requested.end)
    ensures r.Err? <==> node.GaveReason()
  {
    var pending: seq<Range> := [requested];
    var logs: seq<Log> := [];
    ghost var requests := 0;
    ghost var last: int := requested.start - 1;
    StartBisecting(node.src, requested, Pairs(filter), node.ordered);
    while pending != []
      invariant |node.history| == |old(node.history)| + requests && (requests == 0 ==> pending == [requested])
      invariant requests > 0 ==> !node.GaveReason()
      invariant Bisecting(requested, pending, requests, last + 1)
      invariant Collected(node.src, requested.start, Pairs(filter), node.ordered, logs, last)
      decreases 2 * Size(requested) - requests
    {
      var step;
      step, last := RequestTop(node, requested, filter, pending, logs, requests, last);
      requests := requests + 1;
      if step.Err? {
        return Err;
      }
      pending, logs := step.value.0, step.value.1;
    }
    NothingPending(requested, requests, last + 1);
    r := Ok(logs);
  }
}
