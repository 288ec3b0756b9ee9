/** Decoding one block's candidate transactions and logs through the index, proved equal, monitor by
    monitor, to scanning with that monitor's own schema and filter. */
module BlockDecoder {
  import opened Domain
  import opened Results
  import opened Abi
  import opened FilterCompiler
  import opened FilterProofs
  import opened Findings
  import opened Indexer

  // ---- The naive scan of one monitor ----

  function CallKeyOf(tx: Transaction): Option<Key> {
    if |tx.input| >= 4 then Some(CallKey(tx.to, tx.input[..4])) else None
  }

  function CallContextOf(d: Decoders, number: U64, tx: Transaction, layout: Layout): Option<Context> {
    if layout.Calls? && |tx.input| >= 4 then
      match d.call(layout.types, tx.input[4..])
      case None => None
      case Some(params) => Some(CallContext(number, tx.hash, tx.from, tx.to, params))
    else None
  }

  function CallDecode(d: Decoders, number: U64, tx: Transaction): Decode {
    layout => CallContextOf(d, number, tx, layout)
  }

  /** What one transaction gives one monitor. */
  function CallHits(d: Decoders, m: Monitor, number: U64, tx: Transaction): seq<Decoded> {
    if m.target.CallTarget? && CallKeyOf(tx) == Some(KeyOf(m)) then Hit(m, CallDecode(d, number, tx)) else []
  }

  function EventKeyOf(log: Log): Option<Key> {
    if log.topics != [] then Some(EventKey(log.address, log.topics[0])) else None
  }

  function EventContextOf(d: Decoders, number: U64, log: Log, layout: Layout): Option<Context> {
    if layout.Events? && log.topics != [] && log.txHash.Some? && log.logIndex.Some? then
      match DecodeLog(d, layout.params, log.topics[0], log.topics, log.data)
      case None => None
      case Some(params) => Some(EventContext(number, log.txHash.value, log.address, log.logIndex.value, params))
    else None
  }

  function EventDecode(d: Decoders, number: U64, log: Log): Decode {
    layout => EventContextOf(d, number, log, layout)
  }

  /** What one log gives one monitor. */
  function EventHits(d: Decoders, m: Monitor, number: U64, log: Log): seq<Decoded> {
    if m.target.EventTarget? && EventKeyOf(log) == Some(KeyOf(m)) then Hit(m, EventDecode(d, number, log)) else []
  }

  function TxHits(d: Decoders, m: Monitor, number: U64, succeeded: Hash -> bool): Transaction -> seq<Decoded> {
    (tx: Transaction) => if succeeded(tx.hash) then CallHits(d, m, number, tx) else []
  }

  function LogHits(d: Decoders, m: Monitor, number: U64): Log -> seq<Decoded> {
    (log: Log) => EventHits(d, m, number, log)
  }

  function ScanCalls(d: Decoders, m: Monitor, number: U64, txs: seq<Transaction>, succeeded: Hash -> bool): seq<Decoded> {
    Gather(txs, TxHits(d, m, number, succeeded))
  }

  function ScanEvents(d: Decoders, m: Monitor, number: U64, logs: seq<Log>): seq<Decoded> {
    Gather(logs, LogHits(d, m, number))
  }

  // ---- The scan finds what is meant ----

  lemma CallHitsMean(d: Decoders, m: Monitor, e: Option<Expression>, number: U64, tx: Transaction, succeeded: bool)
    requires WellTyped(d) && Condition(m, e)
    ensures (if succeeded then CallHits(d, m, number, tx) else []) == CallFinding(d, m, e, number, tx, succeeded)
  {
    if succeeded && WatchesCall(m.target, tx) {
      assert CallLayoutOf(m.target.params) == seq(|m.target.params|, i requires 0 <= i < |m.target.params| => m.target.params[i].ty);
      var values := Arguments(d, m.target, tx);
      if values.Some? {
        var ctx := CallContext(number, tx.hash, tx.from, tx.to, values.value);
        ArgumentsFit(d, m.target, number, tx);
        ConditionDecides(m, e, ctx);
        assert CallDecode(d, number, tx)(LayoutOf(m)) == Some(ctx);
      } else {
        assert CallDecode(d, number, tx)(LayoutOf(m)) == None;
      }
    } else {
      assert m.target.CallTarget? && CallKeyOf(tx) == Some(KeyOf(m)) ==> WatchesCall(m.target, tx);
    }
  }

  lemma EventHitsMean(d: Decoders, m: Monitor, e: Option<Expression>, number: U64, log: Log)
    requires WellTyped(d) && Condition(m, e)
    ensures EventHits(d, m, number, log) == LogFinding(d, m, e, number, log)
  {
    if WatchesLog(m.target, log) && log.txHash.Some? && log.logIndex.Some? {
      assert EventLayoutOf(m.target.params) ==
             seq(|m.target.params|, i requires 0 <= i < |m.target.params| => (m.target.params[i].ty, m.target.params[i].indexed));
      var values := Parameters(d, m.target, log);
      if values.Some? {
        var ctx := EventContext(number, log.txHash.value, log.address, log.logIndex.value, values.value);
        ParametersFit(d, m.target, number, log, log.txHash.value, log.logIndex.value);
        ConditionDecides(m, e, ctx);
        assert EventDecode(d, number, log)(LayoutOf(m)) == Some(ctx);
      } else {
        assert EventDecode(d, number, log)(LayoutOf(m)) == None;
      }
    } else if WatchesLog(m.target, log) {
      assert EventDecode(d, number, log)(LayoutOf(m)) == None;
    } else {
      assert m.target.EventTarget? && EventKeyOf(log) == Some(KeyOf(m)) ==> WatchesLog(m.target, log);
    }
  }

  /** Transactions with what the source says of their success. */
  function WithOutcomes(txs: seq<Transaction>, succeeded: Hash -> bool): seq<(Transaction, bool)> {
    seq(|txs|, i requires 0 <= i < |txs| => (txs[i], succeeded(txs[i].hash)))
  }

  lemma {:induction false} ScanCallsMean(d: Decoders, m: Monitor, e: Option<Expression>, number: U64, txs: seq<Transaction>,
                                         succeeded: Hash -> bool)
    requires WellTyped(d) && Condition(m, e)
    ensures ScanCalls(d, m, number, txs, succeeded) == CallFindings(d, m, e, number, WithOutcomes(txs, succeeded))
  {
    if txs == [] {
    } else {
      var init, last := txs[..|txs| - 1], txs[|txs| - 1];
      ScanCallsMean(d, m, e, number, init, succeeded);
      CallHitsMean(d, m, e, number, last, succeeded(last.hash));
      assert WithOutcomes(txs, succeeded)[..|txs| - 1] == WithOutcomes(init, succeeded);
    }
  }

  lemma {:induction false} ScanEventsMean(d: Decoders, m: Monitor, e: Option<Expression>, number: U64, logs: seq<Log>)
    requires WellTyped(d) && Condition(m, e)
    ensures ScanEvents(d, m, number, logs) == LogFindings(d, m, e, number, logs)
  {
    if logs == [] {
    } else {
      ScanEventsMean(d, m, e, number, logs[..|logs| - 1]);
      EventHitsMean(d, m, e, number, logs[|logs| - 1]);
    }
  }

  /** Every planned monitor has in `out` exactly what it is meant to find in the answered transactions,
      other monitors nothing. */
  ghost predicate FindsCalls(out: seq<Decoded>, d: Decoders, monitors: seq<Monitor>, number: U64, planned: seq<nat>,
                             txs: seq<(Transaction, bool)>)
  {
    forall j, e {:trigger Condition(monitors[j], e)} :: 0 <= j < |monitors| && Condition(monitors[j], e) ==>
      Select(out, monitors[j].id) ==
      if IsPlanned(monitors, j, number, planned) then CallFindings(d, monitors[j], e, number, txs) else []
  }

  ghost predicate FindsEvents(out: seq<Decoded>, d: Decoders, monitors: seq<Monitor>, number: U64, planned: seq<nat>, logs: seq<Log>) {
    forall j, e {:trigger Condition(monitors[j], e)} :: 0 <= j < |monitors| && Condition(monitors[j], e) ==>
      Select(out, monitors[j].id) ==
      if IsPlanned(monitors, j, number, planned) then LogFindings(d, monitors[j], e, number, logs) else []
  }

  // ---- Filters never fail on decoded values ----

  ghost predicate AllCompiled(monitors: seq<Monitor>) {
    forall m :: m in monitors ==> CompiledFor(m.filter, m.target)
  }

  lemma CallsNeverFail(d: Decoders, monitors: seq<Monitor>, key: Key, number: U64, planned: seq<nat>, tx: Transaction)
    requires WellTyped(d) && AllCompiled(monitors)
    ensures !FilterFails(monitors, true, key, number, planned, CallDecode(d, number, tx))
  {
    forall j | 0 <= j < |monitors| && monitors[j].target.CallTarget? && CallContextOf(d, number, tx, LayoutOf(monitors[j])).Some?
      ensures Evaluate(monitors[j].filter, CallContextOf(d, number, tx, LayoutOf(monitors[j])).value).Ok?
    {
      var m := monitors[j];
      var types := CallLayoutOf(m.target.params);
      assert Typed(d.call(types, tx.input[4..]).value, types, false);
      FilterNeverFails(m.filter, m.target, CallContextOf(d, number, tx, LayoutOf(m)).value);
    }
  }

  lemma EventsNeverFail(d: Decoders, monitors: seq<Monitor>, key: Key, number: U64, planned: seq<nat>, log: Log)
    requires WellTyped(d) && AllCompiled(monitors)
    ensures !FilterFails(monitors, false, key, number, planned, EventDecode(d, number, log))
  {
    forall j | 0 <= j < |monitors| && monitors[j].target.EventTarget? && EventContextOf(d, number, log, LayoutOf(monitors[j])).Some?
      ensures Evaluate(monitors[j].filter, EventContextOf(d, number, log, LayoutOf(monitors[j])).value).Ok?
    {
      var m := monitors[j];
      var layout := EventLayoutOf(m.target.params);
      InterleaveTyped(layout, d.log(layout, log.topics[0], log.topics, log.data).value);
      var ctx := EventContextOf(d, number, log, LayoutOf(m)).value;
      forall i | 0 <= i < |ctx.params|
        ensures HasType(ctx.params[i], m.target.params[i].ty, m.target.params[i].indexed)
      {
        assert HasType(ctx.params[i], layout[i].0, layout[i].1);
      }
      FilterNeverFails(m.filter, m.target, ctx);
    }
  }

  // ---- Calls ----

  predicate HasCall(index: MonitorIndex, number: U64, tx: Transaction, planned: seq<nat>) {
    CallKeyOf(tx).Some? && HasPlanned(index.monitors, index.calls, CallKeyOf(tx).value, number, planned)
  }

  /** The outcomes answer the candidates one by one, in order. */
  predicate Aligned(block: Block, candidates: seq<nat>, outcomes: seq<Outcome>) {
    && |candidates| == |outcomes|
    && forall k :: 0 <= k < |candidates| ==>
         candidates[k] < |block.transactions| && outcomes[k].hash == block.transactions[candidates[k]].hash
  }

  type Answer = (nat, Outcome)

  function Answers(candidates: seq<nat>, outcomes: seq<Outcome>): (r: seq<Answer>)
    requires |candidates| == |outcomes|
  {
    seq(|candidates|, k requires 0 <= k < |candidates| => (candidates[k], outcomes[k]))
  }

  function AnswerHits(d: Decoders, m: Monitor, block: Block): Answer -> seq<Decoded> {
    (answer: Answer) =>
      if answer.1.succeeded && answer.0 < |block.transactions|
      then CallHits(d, m, block.number, block.transactions[answer.0]) else []
  }

  function CallTotals(d: Decoders, block: Block, answers: seq<Answer>): Monitor -> seq<Decoded> {
    m => Gather(answers, AnswerHits(d, m, block))
  }

  /** Every planned monitor has exactly `expected` of it in `out`, other monitors nothing. */
  ghost predicate PerMonitor(out: seq<Decoded>, monitors: seq<Monitor>, number: U64, planned: seq<nat>, expected: Monitor -> seq<Decoded>) {
    && (forall j :: 0 <= j < |monitors| ==>
          Select(out, monitors[j].id) == if IsPlanned(monitors, j, number, planned) then expected(monitors[j]) else [])
    && (forall x :: x in out ==> OfPlanned(x, monitors, number, planned))
  }

  ghost predicate OfPlanned(x: Decoded, monitors: seq<Monitor>, number: U64, planned: seq<nat>) {
    exists j :: 0 <= j < |monitors| && IsPlanned(monitors, j, number, planned) && x.monitor == monitors[j].id
  }

  lemma PerMonitorMore(out: seq<Decoded>, more: seq<Decoded>, monitors: seq<Monitor>, calls: bool, key: Key, number: U64,
                       planned: seq<nat>, decode: Decode, expected: Monitor -> seq<Decoded>, next: Monitor -> seq<Decoded>)
    requires PerMonitor(out, monitors, number, planned, expected)
    requires Serves(more, monitors, calls, key, number, planned, decode, {})
    requires forall m :: m in monitors ==>
               next(m) == expected(m) + if m.target.CallTarget? == calls && KeyOf(m) == key then Hit(m, decode) else []
    ensures PerMonitor(out + more, monitors, number, planned, next)
  {
    forall j | 0 <= j < |monitors|
      ensures Select(out + more, monitors[j].id) == if IsPlanned(monitors, j, number, planned) then next(monitors[j]) else []
    {
      SelectConcat(out, more, monitors[j].id);
    }
    forall x | x in out + more
      ensures OfPlanned(x, monitors, number, planned)
    {
      if x in more {
        assert Origin(x, monitors, calls, key, number, planned);
      }
    }
  }

  /** What serves one key is each planned monitor's own hits. */
  lemma ServedIsTotal(out: seq<Decoded>, monitors: seq<Monitor>, calls: bool, key: Key, number: U64, planned: seq<nat>,
                      decode: Decode, total: Monitor -> seq<Decoded>)
    requires Serves(out, monitors, calls, key, number, planned, decode, {})
    requires forall m :: m in monitors ==>
               total(m) == if m.target.CallTarget? == calls && KeyOf(m) == key then Hit(m, decode) else []
    ensures PerMonitor(out, monitors, number, planned, total)
  {
    PerMonitorMore([], out, monitors, calls, key, number, planned, decode, Nothing(), total);
    assert [] + out == out;
  }

  function Nothing(): Monitor -> seq<Decoded> {
    m => []
  }

  lemma NothingServed(monitors: seq<Monitor>, number: U64, planned: seq<nat>, total: Monitor -> seq<Decoded>)
    requires forall j :: 0 <= j < |monitors| && IsPlanned(monitors, j, number, planned) ==> total(monitors[j]) == []
    ensures PerMonitor([], monitors, number, planned, total)
  {
  }

  /** The transactions the candidates name, with their outcomes. */
  function Answered(block: Block, candidates: seq<nat>, outcomes: seq<Outcome>): seq<(Transaction, bool)>
    requires Aligned(block, candidates, outcomes)
  {
    seq(|candidates|, k requires 0 <= k < |candidates| => (block.transactions[candidates[k]], outcomes[k].succeeded))
  }

  lemma {:induction false} AnswersMean(d: Decoders, m: Monitor, e: Option<Expression>, block: Block, candidates: seq<nat>,
                                       outcomes: seq<Outcome>)
    requires WellTyped(d) && Condition(m, e) && Aligned(block, candidates, outcomes)
    ensures CallTotals(d, block, Answers(candidates, outcomes))(m) ==
            CallFindings(d, m, e, block.number, Answered(block, candidates, outcomes))
    decreases |candidates|
  {
    if candidates == [] {
    } else {
      var n := |candidates| - 1;
      AnswersMean(d, m, e, block, candidates[..n], outcomes[..n]);
      assert Answers(candidates, outcomes)[..n] == Answers(candidates[..n], outcomes[..n]);
      assert Answered(block, candidates, outcomes)[..n] == Answered(block, candidates[..n], outcomes[..n]);
      CallHitsMean(d, m, e, block.number, block.transactions[candidates[n]], outcomes[n].succeeded);
    }
  }

  lemma CallsAreFound(d: Decoders, out: seq<Decoded>, monitors: seq<Monitor>, planned: seq<nat>, block: Block, candidates: seq<nat>,
                      outcomes: seq<Outcome>)
    requires WellTyped(d) && Aligned(block, candidates, outcomes)
    requires PerMonitor(out, monitors, block.number, planned, CallTotals(d, block, Answers(candidates, outcomes)))
    ensures FindsCalls(out, d, monitors, block.number, planned, Answered(block, candidates, outcomes))
  {
    forall j, e | 0 <= j < |monitors| && Condition(monitors[j], e)
      ensures Select(out, monitors[j].id) ==
              if IsPlanned(monitors, j, block.number, planned)
              then CallFindings(d, monitors[j], e, block.number, Answered(block, candidates, outcomes)) else []
    {
      AnswersMean(d, monitors[j], e, block, candidates, outcomes);
    }
  }

  lemma EventsAreFound(d: Decoders, out: seq<Decoded>, monitors: seq<Monitor>, number: U64, planned: seq<nat>, logs: seq<Log>)
    requires WellTyped(d) && PerMonitor(out, monitors, number, planned, EventTotals(d, number, logs))
    ensures FindsEvents(out, d, monitors, number, planned, logs)
  {
    forall j, e | 0 <= j < |monitors| && Condition(monitors[j], e)
      ensures Select(out, monitors[j].id) ==
              if IsPlanned(monitors, j, number, planned) then LogFindings(d, monitors[j], e, number, logs) else []
    {
      ScanEventsMean(d, monitors[j], e, number, logs);
    }
  }

  lemma PerMonitorSame(out: seq<Decoded>, monitors: seq<Monitor>, number: U64, planned: seq<nat>,
                       expected: Monitor -> seq<Decoded>, next: Monitor -> seq<Decoded>)
    requires PerMonitor(out, monitors, number, planned, expected)
    requires forall j :: 0 <= j < |monitors| && IsPlanned(monitors, j, number, planned) ==> next(monitors[j]) == expected(monitors[j])
    ensures PerMonitor(out, monitors, number, planned, next)
  {
  }

  lemma TotalsStep(d: Decoders, block: Block, answers: seq<Answer>, k: nat, m: Monitor)
    requires k < |answers|
    ensures CallTotals(d, block, answers[..k + 1])(m) ==
            CallTotals(d, block, answers[..k])(m) + AnswerHits(d, m, block)(answers[k])
  {
    assert answers[..k + 1][..k] == answers[..k];
  }

  /** What one candidate gives a monitor. */
  function CallTotal(d: Decoders, number: U64, tx: Transaction, succeeded: bool): Monitor -> seq<Decoded> {
    m => if succeeded then CallHits(d, m, number, tx) else []
  }

  /** One candidate: nothing for a reverted transaction or one shorter than a selector. */
  method DecodeCandidate(d: Decoders, number: U64, index: MonitorIndex, planned: seq<nat>, tx: Transaction, succeeded: bool)
    returns (r: Result<seq<Decoded>>)
    requires ValidIndex(index) && DistinctIds(index.monitors)
    ensures r.Ok? ==> PerMonitor(r.value, index.monitors, number, planned, CallTotal(d, number, tx, succeeded))
    ensures WellTyped(d) && AllCompiled(index.monitors) ==> r.Ok?
  {
    var key := CallKeyOf(tx);
    if !succeeded || key.None? {
      NothingServed(index.monitors, number, planned, CallTotal(d, number, tx, succeeded));
      return Ok([]);
    }
    r := MatchKey(index.monitors, index.calls, true, key.value, number, planned, CallDecode(d, number, tx));
    if r.Ok? {
      ServedIsTotal(r.value, index.monitors, true, key.value, number, planned, CallDecode(d, number, tx),
                    CallTotal(d, number, tx, succeeded));
    } else if WellTyped(d) && AllCompiled(index.monitors) {
      CallsNeverFail(d, index.monitors, key.value, number, planned, tx);
    }
  }

  lemma PerMonitorConcat(a: seq<Decoded>, b: seq<Decoded>, monitors: seq<Monitor>, number: U64, planned: seq<nat>,
                         f: Monitor -> seq<Decoded>, g: Monitor -> seq<Decoded>, h: Monitor -> seq<Decoded>)
    requires PerMonitor(a, monitors, number, planned, f) && PerMonitor(b, monitors, number, planned, g)
    requires forall m :: m in monitors ==> h(m) == f(m) + g(m)
    ensures PerMonitor(a + b, monitors, number, planned, h)
  {
    forall j | 0 <= j < |monitors|
      ensures Select(a + b, monitors[j].id) == if IsPlanned(monitors, j, number, planned) then h(monitors[j]) else []
    {
      SelectConcat(a, b, monitors[j].id);
    }
  }

  /** Fails only on misaligned outcomes or a filter that cannot be evaluated. */
  method DecodeCalls(d: Decoders, block: Block, index: MonitorIndex, planned: seq<nat>, candidates: seq<nat>, outcomes: seq<Outcome>)
    returns (r: Result<seq<Decoded>>)
    requires ValidIndex(index) && DistinctIds(index.monitors)
    ensures r.Ok? ==> Aligned(block, candidates, outcomes)
    ensures r.Ok? ==> PerMonitor(r.value, index.monitors, block.number, planned,
                                 CallTotals(d, block, Answers(candidates, outcomes)))
    ensures r.Ok? && WellTyped(d) ==>
              FindsCalls(r.value, d, index.monitors, block.number, planned, Answered(block, candidates, outcomes))
    ensures WellTyped(d) && AllCompiled(index.monitors) && Aligned(block, candidates, outcomes) ==> r.Ok?
  {
    if |candidates| != |outcomes| {
      return Err;
    }
    ghost var answers := Answers(candidates, outcomes);
    var out: seq<Decoded> := [];
    var k := 0;
    while k < |candidates|
      invariant 0 <= k <= |candidates|
      invariant forall i :: 0 <= i < k ==>
                  candidates[i] < |block.transactions| && outcomes[i].hash == block.transactions[candidates[i]].hash
      invariant PerMonitor(out, index.monitors, block.number, planned, CallTotals(d, block, answers[..k]))
    {
      if candidates[k] >= |block.transactions| || outcomes[k].hash != block.transactions[candidates[k]].hash {
        return Err;
      }
      var tx := block.transactions[candidates[k]];
      var found := DecodeCandidate(d, block.number, index, planned, tx, outcomes[k].succeeded);
      if found.Err? {
        return Err;
      }
      forall m: Monitor
        ensures CallTotals(d, block, answers[..k + 1])(m) ==
                CallTotals(d, block, answers[..k])(m) + if outcomes[k].succeeded then CallHits(d, m, block.number, tx) else []
      {
        TotalsStep(d, block, answers, k, m);
      }
      PerMonitorConcat(out, found.value, index.monitors, block.number, planned, CallTotals(d, block, answers[..k]),
                       CallTotal(d, block.number, tx, outcomes[k].succeeded),
                       CallTotals(d, block, answers[..k + 1]));
      out := out + found.value;
      k := k + 1;
    }
    assert answers[..|candidates|] == answers;
    if WellTyped(d) {
      CallsAreFound(d, out, index.monitors, planned, block, candidates, outcomes);
    }
    r := Ok(out);
  }

  // ---- Events ----

  /** A log of a finalized block as the source must report it. */
  predicate Clean(log: Log, number: U64) {
    !log.removed && log.block == Some(number) && log.txHash.Some? && log.logIndex.Some?
  }

  function EventTotals(d: Decoders, number: U64, logs: seq<Log>): Monitor -> seq<Decoded> {
    m => ScanEvents(d, m, number, logs)
  }

  function EventTotal(d: Decoders, number: U64, log: Log): Monitor -> seq<Decoded> {
    m => EventHits(d, m, number, log)
  }

  lemma EventsMore(d: Decoders, number: U64, monitors: seq<Monitor>, planned: seq<nat>, logs: seq<Log>, k: nat,
                   out: seq<Decoded>, more: seq<Decoded>)
    requires k < |logs|
    requires PerMonitor(out, monitors, number, planned, EventTotals(d, number, logs[..k]))
    requires PerMonitor(more, monitors, number, planned, EventTotal(d, number, logs[k]))
    ensures PerMonitor(out + more, monitors, number, planned, EventTotals(d, number, logs[..k + 1]))
  {
    assert logs[..k + 1][..k] == logs[..k];
    PerMonitorConcat(out, more, monitors, number, planned, EventTotals(d, number, logs[..k]),
                     EventTotal(d, number, logs[k]), EventTotals(d, number, logs[..k + 1]));
  }

  lemma ReachedHasPlanned(monitors: seq<Monitor>, groups: Groups, j: nat, calls: bool, key: Key, number: U64, planned: seq<nat>)
    requires Grouped(groups, monitors, |monitors|, calls)
    requires j < |monitors| && Reached(monitors, j, calls, key, number, planned)
    ensures HasPlanned(monitors, groups, key, number, planned)
  {
    ReachedIsGrouped(monitors, groups, j, calls, key, number, planned);
    var layout := LayoutOf(monitors[j]);
    assert GroupedAt(Group(groups, key, layout), monitors, |monitors|, calls, key, layout);
    assert AnyPlanned(monitors, groups[key][layout], number, planned);
  }

  lemma PlannedIsReached(monitors: seq<Monitor>, groups: Groups, calls: bool, key: Key, number: U64, planned: seq<nat>) returns (j: nat)
    requires Grouped(groups, monitors, |monitors|, calls)
    requires HasPlanned(monitors, groups, key, number, planned)
    ensures j < |monitors| && Reached(monitors, j, calls, key, number, planned)
  {
    var layout :| layout in groups[key] && AnyPlanned(monitors, groups[key][layout], number, planned);
    assert GroupedAt(Group(groups, key, layout), monitors, |monitors|, calls, key, layout);
    j :| j in groups[key][layout] && IsPlanned(monitors, j, number, planned);
  }

  /** A log is looked up under the key of exactly the monitors that watch it. */
  lemma WatchedKey(m: Monitor, log: Log)
    ensures WatchesLog(m.target, log) <==> m.target.EventTarget? && EventKeyOf(log) == Some(KeyOf(m))
  {
  }

  /** Some planned event monitor watches the log's address and first topic. */
  ghost predicate Watched(index: MonitorIndex, number: U64, planned: seq<nat>, log: Log) {
    exists j: nat :: j < |index.monitors| && IsPlanned(index.monitors, j, number, planned) && WatchesLog(index.monitors[j].target, log)
  }

  /** One log: skipped when no planned monitor watches it; refused when one does and the source reported
      it badly, and then only. */
  method DecodeLogEntry(d: Decoders, number: U64, index: MonitorIndex, planned: seq<nat>, log: Log)
    returns (r: Result<seq<Decoded>>)
    requires ValidIndex(index) && DistinctIds(index.monitors)
    ensures r.Ok? ==> PerMonitor(r.value, index.monitors, number, planned, EventTotal(d, number, log))
    ensures !Watched(index, number, planned, log) ==> r == Ok([])
    ensures Watched(index, number, planned, log) && log.removed ==> r.Err?
    ensures Watched(index, number, planned, log) && log.block != Some(number) ==> r.Err?
    ensures Watched(index, number, planned, log) && (log.txHash.None? || log.logIndex.None?) ==> r.Err?
    ensures WellTyped(d) && AllCompiled(index.monitors) ==> (r.Ok? <==> (Watched(index, number, planned, log) ==> Clean(log, number)))
  {
    var key := EventKeyOf(log);
    if key.None? {
      return Ok([]);
    }
    if !HasPlanned(index.monitors, index.events, key.value, number, planned) {
      forall j | 0 <= j < |index.monitors| && IsPlanned(index.monitors, j, number, planned)
        ensures EventHits(d, index.monitors[j], number, log) == []
      {
        if Reached(index.monitors, j, false, key.value, number, planned) {
          ReachedHasPlanned(index.monitors, index.events, j, false, key.value, number, planned);
        }
      }
      if Watched(index, number, planned, log) {
        var j: nat :| j < |index.monitors| && IsPlanned(index.monitors, j, number, planned) && WatchesLog(index.monitors[j].target, log);
        WatchedKey(index.monitors[j], log);
        ReachedHasPlanned(index.monitors, index.events, j, false, key.value, number, planned);
      }
      return Ok([]);
    }
    ghost var watching := PlannedIsReached(index.monitors, index.events, false, key.value, number, planned);
    WatchedKey(index.monitors[watching], log);
    if !Clean(log, number) {
      return Err;
    }
    r := MatchKey(index.monitors, index.events, false, key.value, number, planned, EventDecode(d, number, log));
    if r.Ok? {
      ServedIsTotal(r.value, index.monitors, false, key.value, number, planned, EventDecode(d, number, log),
                    EventTotal(d, number, log));
    } else if WellTyped(d) && AllCompiled(index.monitors) {
      EventsNeverFail(d, index.monitors, key.value, number, planned, log);
    }
  }

  ghost predicate WatchedAreClean(logs: seq<Log>, index: MonitorIndex, number: U64, planned: seq<nat>) {
    forall log :: log in logs ==> WatchedIsClean(log, index, number, planned)
  }

  ghost predicate WatchedIsClean(log: Log, index: MonitorIndex, number: U64, planned: seq<nat>) {
    Watched(index, number, planned, log) ==> Clean(log, number)
  }

  lemma OneMoreClean(logs: seq<Log>, k: nat, index: MonitorIndex, number: U64, planned: seq<nat>)
    requires k < |logs| && WatchedAreClean(logs[..k], index, number, planned)
    requires WatchedIsClean(logs[k], index, number, planned)
    ensures WatchedAreClean(logs[..k + 1], index, number, planned)
  {
    forall log | log in logs[..k + 1]
      ensures WatchedIsClean(log, index, number, planned)
    {
      assert logs[..k + 1] == logs[..k] + [logs[k]];
    }
  }

  /** Every log, refused exactly if a watched one was reported badly, unless a filter cannot be evaluated. */
  method DecodeEvents(d: Decoders, number: U64, index: MonitorIndex, planned: seq<nat>, logs: seq<Log>)
    returns (r: Result<seq<Decoded>>)
    requires ValidIndex(index) && DistinctIds(index.monitors)
    ensures r.Ok? ==> PerMonitor(r.value, index.monitors, number, planned, EventTotals(d, number, logs))
    ensures r.Ok? && WellTyped(d) ==> FindsEvents(r.value, d, index.monitors, number, planned, logs)
    ensures r.Ok? ==> WatchedAreClean(logs, index, number, planned)
    ensures WellTyped(d) && AllCompiled(index.monitors) && WatchedAreClean(logs, index, number, planned) ==> r.Ok?
  {
    var out: seq<Decoded> := [];
    var k := 0;
    while k < |logs|
      invariant 0 <= k <= |logs|
      invariant PerMonitor(out, index.monitors, number, planned, EventTotals(d, number, logs[..k]))
      invariant WatchedAreClean(logs[..k], index, number, planned)
    {
      var found := DecodeLogEntry(d, number, index, planned, logs[k]);
      if found.Err? {
        assert logs[k] in logs && !(WellTyped(d) && AllCompiled(index.monitors) && WatchedIsClean(logs[k], index, number, planned));
        return Err;
      }
      EventsMore(d, number, index.monitors, planned, logs, k, out, found.value);
      OneMoreClean(logs, k, index, number, planned);
      out := out + found.value;
      k := k + 1;
    }
    assert logs[..|logs|] == logs;
    if WellTyped(d) {
      EventsAreFound(d, out, index.monitors, number, planned, logs);
    }
    r := Ok(out);
  }
}
