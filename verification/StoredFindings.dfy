/** What is stored, told from the chain alone: each row shows a transaction or log that the monitor was
    meant to find, with the values it decodes to, and every such transaction or log has its row. */
module StoredFindings {
  import opened Domain
  import opened Results
  import opened Abi
  import opened FilterCompiler
  import opened FilterProofs
  import opened Findings
  import opened BlockDecoder
  import opened Preparer
  import opened Storage
  import opened Protocol
  import opened ProtocolProofs

  // ---- Rows of findings ----

  /** The row a call is kept in. */
  function CallRow(d: Decoders, m: Monitor, e: Option<Expression>, number: U64, tx: Transaction, succeeded: bool): seq<Row> {
    if CallFinding(d, m, e, number, tx, succeeded) == [] then []
    else [Row(tx.hash, None, number, Arguments(d, m.target, tx).value)]
  }

  function LogRow(d: Decoders, m: Monitor, e: Option<Expression>, number: U64, log: Log): seq<Row> {
    if LogFinding(d, m, e, number, log) == [] then []
    else [Row(log.txHash.value, log.logIndex, number, Parameters(d, m.target, log).value)]
  }

  function CallRows(d: Decoders, m: Monitor, e: Option<Expression>, number: U64, txs: seq<(Transaction, bool)>): seq<Row> {
    if txs == [] then []
    else CallRows(d, m, e, number, txs[..|txs| - 1]) + CallRow(d, m, e, number, txs[|txs| - 1].0, txs[|txs| - 1].1)
  }

  function LogRows(d: Decoders, m: Monitor, e: Option<Expression>, number: U64, logs: seq<Log>): seq<Row> {
    if logs == [] then [] else LogRows(d, m, e, number, logs[..|logs| - 1]) + LogRow(d, m, e, number, logs[|logs| - 1])
  }

  function BlockRows(d: Decoders, src: Source, m: Monitor, e: Option<Expression>, number: U64): seq<Row> {
    CallRows(d, m, e, number, WithOutcomes(src.transactions(number), src.succeeded)) + LogRows(d, m, e, number, src.logs(number))
  }

  /** The rows of blocks `from` up to but excluding `upto`. */
  function FoundRows(net: Network, m: Monitor, e: Option<Expression>, from: int, upto: int): seq<Row>
    requires 0 <= from && upto <= U64_MAX + 1
    decreases upto - from
  {
    if from >= upto then []
    else FoundRows(net, m, e, from, upto - 1) + BlockRows(net.d, net.source(m.chain), m, e, upto - 1)
  }

  lemma {:induction false} CallRowsOfFindings(d: Decoders, m: Monitor, e: Option<Expression>, number: U64, txs: seq<(Transaction, bool)>)
    ensures RowsOf(CallFindings(d, m, e, number, txs)) == CallRows(d, m, e, number, txs)
  {
    if txs == [] {
    } else {
      var init, last := txs[..|txs| - 1], txs[|txs| - 1];
      CallRowsOfFindings(d, m, e, number, init);
      RowsConcat(CallFindings(d, m, e, number, init), CallFinding(d, m, e, number, last.0, last.1));
      assert RowsOf(CallFinding(d, m, e, number, last.0, last.1)) == CallRow(d, m, e, number, last.0, last.1);
    }
  }

  lemma {:induction false} LogRowsOfFindings(d: Decoders, m: Monitor, e: Option<Expression>, number: U64, logs: seq<Log>)
    ensures RowsOf(LogFindings(d, m, e, number, logs)) == LogRows(d, m, e, number, logs)
  {
    if logs == [] {
    } else {
      var init, last := logs[..|logs| - 1], logs[|logs| - 1];
      LogRowsOfFindings(d, m, e, number, init);
      RowsConcat(LogFindings(d, m, e, number, init), LogFinding(d, m, e, number, last));
      assert RowsOf(LogFinding(d, m, e, number, last)) == LogRow(d, m, e, number, last);
    }
  }

  /** The scan of one block is what the monitor is meant to find in it. */
  lemma ScanBlockMeans(d: Decoders, src: Source, m: Monitor, e: Option<Expression>, number: U64)
    requires WellTyped(d) && Condition(m, e)
    ensures ScanBlock(d, src, m, number) ==
            CallFindings(d, m, e, number, WithOutcomes(src.transactions(number), src.succeeded)) +
            LogFindings(d, m, e, number, src.logs(number))
    ensures RowsOf(ScanBlock(d, src, m, number)) == BlockRows(d, src, m, e, number)
  {
    var txs := WithOutcomes(src.transactions(number), src.succeeded);
    ScanCallsMean(d, m, e, number, src.transactions(number), src.succeeded);
    ScanEventsMean(d, m, e, number, src.logs(number));
    CallRowsOfFindings(d, m, e, number, txs);
    LogRowsOfFindings(d, m, e, number, src.logs(number));
    RowsConcat(CallFindings(d, m, e, number, txs), LogFindings(d, m, e, number, src.logs(number)));
  }

  ghost predicate BlockMeans(net: Network, m: Monitor, e: Option<Expression>, number: U64) {
    RowsOf(ScanBlock(net.d, net.source(m.chain), m, number)) == BlockRows(net.d, net.source(m.chain), m, e, number)
  }

  ghost predicate BlocksMean(net: Network, m: Monitor, e: Option<Expression>) {
    forall number: U64 :: BlockMeans(net, m, e, number)
  }

  lemma AllBlocksMean(net: Network, m: Monitor, e: Option<Expression>)
    requires WellTyped(net.d) && Condition(m, e)
    ensures BlocksMean(net, m, e)
  {
    forall number: U64
      ensures BlockMeans(net, m, e, number)
    {
      ScanBlockMeans(net.d, net.source(m.chain), m, e, number);
    }
  }

  lemma {:induction false} ScanRangeMeans(net: Network, m: Monitor, e: Option<Expression>, from: int, upto: int)
    requires BlocksMean(net, m, e) && 0 <= from && upto <= U64_MAX + 1
    ensures ScanRange(net, m, from, upto) == FoundRows(net, m, e, from, upto)
    decreases upto - from
  {
    if from >= upto {
    } else {
      ScanRangeMeans(net, m, e, from, upto - 1);
      assert BlockMeans(net, m, e, upto - 1);
    }
  }

  /** The first block behind the cursor. */
  function Behind(m: Monitor): int {
    if m.cursor.None? then m.start else m.cursor.value + 1
  }

  /** The rows of what a monitor is meant to find in the blocks up to its cursor. */
  function FoundSoFar(net: Network, m: Monitor, e: Option<Expression>): seq<Row> {
    FoundRows(net, Definition(m), e, m.start, Behind(m))
  }

  lemma SameMembers(a: seq<Row>, b: seq<Row>, row: Row)
    requires multiset(a) == multiset(b)
    ensures row in a <==> row in b
  {
    assert row in a <==> row in multiset(a);
    assert row in b <==> row in multiset(b);
  }

  // ---- Every run ----

  lemma TableIsScan(net: Network, m: Monitor, table: seq<Row>)
    requires ExactlyOnce(net, m, table)
    ensures multiset(table) == multiset(ScanRange(net, Definition(m), m.start, Behind(m)))
  {
  }

  /** In every reachable world a monitor's table is, each once, the rows of what it is meant to find in the
      blocks up to its cursor. */
  lemma StoredIsFound(net: Network, w: World, id: nat, e: Option<Expression>)
    requires WellTyped(net.d) && Reachable(net, w) && id in w.store.monitors && Condition(w.store.monitors[id], e)
    ensures id in w.store.tables
    ensures multiset(w.store.tables[id]) == multiset(FoundSoFar(net, w.store.monitors[id], e))
  {
    ExactlyOnceAlways(net, w, id);
    AllBlocksMean(net, Definition(w.store.monitors[id]), e);
    TableIsScan(net, w.store.monitors[id], w.store.tables[id]);
    ScanRangeMeans(net, Definition(w.store.monitors[id]), e, w.store.monitors[id].start, Behind(w.store.monitors[id]));
  }

  /** The row shows a succeeded call of the watched function, with the arguments it decodes to. */
  ghost predicate ShowsCall(row: Row, d: Decoders, m: Monitor, e: Option<Expression>, number: U64, tx: Transaction, succeeded: bool) {
    && succeeded && WatchesCall(m.target, tx)
    && row.txHash == tx.hash && row.logIndex == None && row.block == number
    && Arguments(d, m.target, tx) == Some(row.params)
    && Wanted(e, m.target, CallContext(number, tx.hash, tx.from, tx.to, row.params))
  }

  /** The row shows a watched event, with the parameters it decodes to. */
  ghost predicate ShowsLog(row: Row, d: Decoders, m: Monitor, e: Option<Expression>, number: U64, log: Log) {
    && WatchesLog(m.target, log) && log.txHash.Some? && log.logIndex.Some?
    && row.txHash == log.txHash.value && row.logIndex == log.logIndex && row.block == number
    && Parameters(d, m.target, log) == Some(row.params)
    && Wanted(e, m.target, EventContext(number, log.txHash.value, log.address, log.logIndex.value, row.params))
  }

  ghost predicate ShowsBlock(row: Row, net: Network, m: Monitor, e: Option<Expression>, number: U64) {
    ShowsSomeCall(row, net.d, net.source(m.chain), m, e, number) || ShowsSomeLog(row, net.d, m, e, number, net.source(m.chain).logs(number))
  }

  ghost predicate ShowsSomeCall(row: Row, d: Decoders, src: Source, m: Monitor, e: Option<Expression>, number: U64) {
    exists tx :: tx in src.transactions(number) && ShowsCall(row, d, m, e, number, tx, src.succeeded(tx.hash))
  }

  ghost predicate ShowsSomeLog(row: Row, d: Decoders, m: Monitor, e: Option<Expression>, number: U64, logs: seq<Log>) {
    exists log :: log in logs && ShowsLog(row, d, m, e, number, log)
  }

  lemma {:induction false} CallRowShows(d: Decoders, m: Monitor, e: Option<Expression>, number: U64, txs: seq<(Transaction, bool)>, row: Row)
    ensures row in CallRows(d, m, e, number, txs) <==>
            exists i :: 0 <= i < |txs| && ShowsCall(row, d, m, e, number, txs[i].0, txs[i].1)
  {
    if txs == [] {
    } else {
      var init, last := txs[..|txs| - 1], txs[|txs| - 1];
      CallRowShows(d, m, e, number, init, row);
      assert row in CallRow(d, m, e, number, last.0, last.1) <==> ShowsCall(row, d, m, e, number, last.0, last.1);
      assert txs == init + [last];
    }
  }

  lemma {:induction false} LogRowShows(d: Decoders, m: Monitor, e: Option<Expression>, number: U64, logs: seq<Log>, row: Row)
    ensures row in LogRows(d, m, e, number, logs) <==> ShowsSomeLog(row, d, m, e, number, logs)
  {
    if logs == [] {
    } else {
      var init, last := logs[..|logs| - 1], logs[|logs| - 1];
      LogRowShows(d, m, e, number, init, row);
      assert row in LogRow(d, m, e, number, last) <==> ShowsLog(row, d, m, e, number, last);
      assert logs == init + [last];
    }
  }

  lemma BlockRowShows(net: Network, m: Monitor, e: Option<Expression>, number: U64, row: Row)
    ensures row in BlockRows(net.d, net.source(m.chain), m, e, number) <==> ShowsBlock(row, net, m, e, number)
  {
    var src := net.source(m.chain);
    var txs := WithOutcomes(src.transactions(number), src.succeeded);
    CallRowShows(net.d, m, e, number, txs, row);
    LogRowShows(net.d, m, e, number, src.logs(number), row);
    forall i | 0 <= i < |txs|
      ensures src.transactions(number)[i] in src.transactions(number) && txs[i] == (src.transactions(number)[i], src.succeeded(txs[i].0.hash))
    {
    }
  }

  ghost predicate ShowsWithin(row: Row, net: Network, m: Monitor, e: Option<Expression>, from: int, upto: int)
    requires upto <= U64_MAX + 1
  {
    exists number: U64 :: from <= number < upto && ShowsBlock(row, net, m, e, number)
  }

  lemma ShowsOneMore(row: Row, net: Network, m: Monitor, e: Option<Expression>, from: int, last: U64)
    requires from <= last
    ensures ShowsWithin(row, net, m, e, from, last + 1) <==> ShowsWithin(row, net, m, e, from, last) || ShowsBlock(row, net, m, e, last)
  {
  }

  lemma InConcat(a: seq<Row>, b: seq<Row>, row: Row)
    ensures row in a + b <==> row in a || row in b
  {
  }

  ghost predicate FoundShows(row: Row, net: Network, m: Monitor, e: Option<Expression>, from: int, upto: int)
    requires 0 <= from && upto <= U64_MAX + 1
  {
    row in FoundRows(net, m, e, from, upto) <==> ShowsWithin(row, net, m, e, from, upto)
  }

  lemma FoundOneMore(net: Network, m: Monitor, e: Option<Expression>, from: int, last: U64, row: Row)
    requires 0 <= from <= last
    ensures row in FoundRows(net, m, e, from, last + 1) <==>
            row in FoundRows(net, m, e, from, last) || row in BlockRows(net.d, net.source(m.chain), m, e, last)
  {
    InConcat(FoundRows(net, m, e, from, last), BlockRows(net.d, net.source(m.chain), m, e, last), row);
  }

  lemma ShowsOneBlockMore(net: Network, m: Monitor, e: Option<Expression>, from: int, last: U64, row: Row)
    requires 0 <= from <= last && FoundShows(row, net, m, e, from, last)
    ensures FoundShows(row, net, m, e, from, last + 1)
  {
    BlockRowShows(net, m, e, last, row);
    FoundOneMore(net, m, e, from, last, row);
    ShowsOneMore(row, net, m, e, from, last);
  }

  lemma {:induction false} FoundRowShows(net: Network, m: Monitor, e: Option<Expression>, from: int, upto: int, row: Row)
    requires 0 <= from && upto <= U64_MAX + 1
    ensures FoundShows(row, net, m, e, from, upto)
    decreases upto - from
  {
    if from >= upto {
      assert FoundRows(net, m, e, from, upto) == [];
    } else {
      FoundRowShows(net, m, e, from, upto - 1, row);
      ShowsOneBlockMore(net, m, e, from, upto - 1, row);
    }
  }

  ghost predicate ShowsSoFar(row: Row, net: Network, m: Monitor, e: Option<Expression>) {
    ShowsWithin(row, net, Definition(m), e, m.start, Behind(m))
  }

  /** In every reachable world a row is in a monitor's table exactly if it shows a call or event of a block
      from its start up to its cursor that it is meant to find. */
  lemma StoredRowShows(net: Network, w: World, id: nat, e: Option<Expression>, row: Row)
    requires WellTyped(net.d) && Reachable(net, w) && id in w.store.monitors && Condition(w.store.monitors[id], e)
    ensures id in w.store.tables
    ensures row in w.store.tables[id] <==> ShowsSoFar(row, net, w.store.monitors[id], e)
  {
    StoredIsFound(net, w, id, e);
    FoundRowShows(net, Definition(w.store.monitors[id]), e, w.store.monitors[id].start, Behind(w.store.monitors[id]), row);
    SameMembers(w.store.tables[id], FoundSoFar(net, w.store.monitors[id], e), row);
  }

  lemma HasStoredCondition(net: Network, w: World, id: nat) returns (e: Option<Expression>)
    requires Reachable(net, w) && id in w.store.monitors
    ensures Condition(w.store.monitors[id], e)
  {
    ExactlyOnceAlways(net, w, id);
    e := HasCondition(w.store.monitors[id]);
  }

  /** Stored values have the types of the monitor's schema. */
  lemma StoredValuesTyped(net: Network, w: World, id: nat, row: Row)
    requires WellTyped(net.d) && Reachable(net, w) && id in w.store.monitors && id in w.store.tables && row in w.store.tables[id]
    ensures var target := w.store.monitors[id].target;
            && |row.params| == |target.params|
            && forall i :: 0 <= i < |target.params| ==>
                 HasType(row.params[i], target.params[i].ty, target.EventTarget? && target.params[i].indexed)
  {
    ExactlyOnceAlways(net, w, id);
    var m := w.store.monitors[id];
    var e := HasCondition(m);
    StoredRowShows(net, w, id, e, row);
    var number: U64 :| m.start <= number < Behind(m) && ShowsBlock(row, net, Definition(m), e, number);
    var src := net.source(m.chain);
    if tx :| tx in src.transactions(number) && ShowsCall(row, net.d, Definition(m), e, number, tx, src.succeeded(tx.hash)) {
      ArgumentsFit(net.d, m.target, number, tx);
    } else {
      var log :| log in src.logs(number) && ShowsLog(row, net.d, Definition(m), e, number, log);
      ParametersFit(net.d, m.target, number, log, log.txHash.value, log.logIndex.value);
    }
  }
}
