/** Whole results as the adapters lay them out and read them back: identity, position and parameters. */
module StoredRecords {
  import opened Domain
  import opened Text
  import opened FilterCompiler
  import opened FilterProofs
  import opened Storage
  import opened Postgres
  import opened ResultColumns
  import opened StoredParams
  import opened Protocol
  import opened ProtocolProofs
  import opened Abi
  import opened StoredFindings
  import opened Results

  /** A result as it is shown to whoever asks for it. */
  datatype Record = Record(txHash: Hash, logIndex: Option<U64>, block: U64, params: map<string, Json>)

  /** The record shows the decoded result: its identity and block, and each value under its parameter's
      name. */
  predicate Presents(record: Record, x: Decoded, schema: seq<AbiParam>)
    requires |schema| == |x.params|
  {
    && record.txHash == x.txHash && record.block == x.block
    && (if x.DecodedCall? then record.logIndex == None else record.logIndex == Some(x.logIndex))
    && record.params == Canonical(schema, x.params)
  }

  predicate Typed(values: seq<Value>, schema: seq<AbiParam>) {
    |values| == |schema| && forall i :: 0 <= i < |schema| ==> HasType(values[i], schema[i].ty, schema[i].indexed)
  }

  // ---- PostgreSQL ----

  const TX_HASH := "tx_hash"
  const LOG_INDEX := "log_index"
  const BLOCK_NUMBER := "block_number"

  lemma FixedNames(kind: ResultKind)
    ensures Reserved(kind) == if kind.CallResults? then {TX_HASH, BLOCK_NUMBER} else {TX_HASH, LOG_INDEX, BLOCK_NUMBER}
    ensures TX_HASH != LOG_INDEX && TX_HASH != BLOCK_NUMBER && LOG_INDEX != BLOCK_NUMBER
  {
    assert TX_HASH[0] != LOG_INDEX[0] && TX_HASH[0] != BLOCK_NUMBER[0] && LOG_INDEX[0] != BLOCK_NUMBER[0];
  }

  /** Every column holds its part of the row. */
  ghost predicate Written(cells: map<string, Cell>, params: seq<PgParam>, row: Row)
    requires |params| == |row.params|
  {
    && TX_HASH in cells && cells[TX_HASH] == ByteaCell(row.txHash)
    && BLOCK_NUMBER in cells && cells[BLOCK_NUMBER] == BigintCell(row.block)
    && (row.logIndex.Some? ==> LOG_INDEX in cells && cells[LOG_INDEX] == BigintCell(row.logIndex.value))
    && forall i :: 0 <= i < |params| ==> params[i].column in cells && cells[params[i].column] == CellOf(row.params[i])
  }

  /** Binds identity, position and parameters, exactly the row's own columns; refused exactly for a number
      too wide for a column. */
  method WriteRecord(kind: ResultKind, params: seq<PgParam>, row: Row) returns (r: Result<map<string, Cell>>)
    requires |params| == |row.params| && DistinctColumns(params) && ColumnsOf(params) !! Reserved(kind)
    requires kind.CallResults? <==> row.logIndex.None?
    ensures r.Ok? <==> row.block <= I64_MAX && (row.logIndex.Some? ==> row.logIndex.value <= I64_MAX)
    ensures r.Ok? ==> Written(r.value, params, row)
    ensures r.Ok? ==> r.value.Keys == Reserved(kind) + ColumnsOf(params)
    ensures r.Ok? ==> |r.value.Keys| == |row.params| + FixedColumns(kind)
  {
    if row.block > I64_MAX || (row.logIndex.Some? && row.logIndex.value > I64_MAX) {
      return Err;
    }
    FixedNames(kind);
    var cells := WriteRow(params, row.params);
    forall i | 0 <= i < |params|
      ensures params[i].column in ColumnsOf(params)
    {
    }
    cells := cells[TX_HASH := ByteaCell(row.txHash)][BLOCK_NUMBER := BigintCell(row.block)];
    if row.logIndex.Some? {
      cells := cells[LOG_INDEX := BigintCell(row.logIndex.value)];
    }
    RowWidth(kind, params);
    assert cells.Keys == Reserved(kind) + ColumnsOf(params);
    r := Ok(cells);
  }

  function ReadHash(bytes: Bytes): Option<Hash> {
    if |bytes| == 32 then Some(bytes) else None
  }

  function ReadNumber(i: int): Option<U64> {
    if 0 <= i <= U64_MAX then Some(i) else None
  }

  method ReadRecord(cells: map<string, Cell>, event: bool, params: seq<PgParam>, ghost schema: seq<AbiParam>, ghost row: Row)
    returns (r: Result<Record>)
    requires Typed(row.params, schema) && |params| == |schema| && Written(cells, params, row) && (event <==> row.logIndex.Some?)
    requires forall i :: 0 <= i < |params| ==> params[i].name == schema[i].name && params[i].ty == ColumnTypeOf(schema[i])
    ensures r == Ok(Record(row.txHash, row.logIndex, row.block, Canonical(schema, row.params)))
  {
    var read := ReadParams(cells, params, schema, row.params);
    var hash, block := ReadHash(cells[TX_HASH].bytes), ReadNumber(cells[BLOCK_NUMBER].i);
    var logIndex := if event then ReadNumber(cells[LOG_INDEX].i) else None;
    r := Ok(Record(hash.value, logIndex, block.value, read.value));
  }

  /** A row written to a result table reads back as the result's record. */
  method PostgresRecord(kind: ResultKind, schema: seq<AbiParam>, row: Row) returns (r: Result<Record>)
    requires Typed(row.params, schema) && (kind.CallResults? <==> row.logIndex.None?)
    ensures r == if Narrow(row) then Ok(Record(row.txHash, row.logIndex, row.block, Canonical(schema, row.params))) else Err
  {
    var params := PostgresParams(kind, schema);
    var cells := WriteRecord(kind, params, row);
    if cells.Err? {
      return Err;
    }
    r := ReadRecord(cells.value, kind.EventResults?, params, schema, row);
  }

  // ---- MongoDB ----

  datatype ResultDocument = ResultDocument(txHash: string, logIndex: Option<int>, block: int, params: map<string, Bson>)

  /** Refused for a count mismatch and for a number too wide. */
  function DocumentOf(schema: seq<AbiParam>, row: Row): Result<ResultDocument> {
    if |schema| != |row.params| || !Narrow(row) then Err
    else Ok(ResultDocument(HexText(row.txHash), row.logIndex, row.block, BsonParams(schema, row.params)))
  }

  /** Writing a row and reading it back. */
  function MongoRecord(schema: seq<AbiParam>, row: Row): Result<Record> {
    match DocumentOf(schema, row)
    case Err => Err
    case Ok(document) => ReadDocument(document)
  }

  function ReadDocument(document: ResultDocument): Result<Record> {
    if Prefixed(document.txHash) && |document.txHash| == 66 && IsHex(document.txHash[2..]) &&
       ReadNumber(document.block).Some? && (document.logIndex.Some? ==> ReadNumber(document.logIndex.value).Some?)
    then Ok(Record(HexDecode(document.txHash[2..]), if document.logIndex.Some? then ReadNumber(document.logIndex.value) else None,
                   document.block, BsonParamsToJson(document.params)))
    else Err
  }

  /** A result document reads back as the result's record. */
  lemma DocumentReadsBack(schema: seq<AbiParam>, row: Row)
    requires |schema| == |row.params|
    ensures MongoRecord(schema, row) ==
            if Narrow(row) then Ok(Record(row.txHash, row.logIndex, row.block, Canonical(schema, row.params))) else Err
  {
    HexReadsBack(row.txHash);
    MongoRoundTrip(schema, row.params);
  }

  // ---- Committed results ----

  /** Whatever a block commits of a monitor reads back from PostgreSQL as it was decoded. */
  method CommittedReadsBackFromPostgres(m: Monitor, x: Decoded) returns (r: Result<Record>)
    requires EncodesFor(x, m) && Typed(x.params, m.target.params)
    ensures r.Ok? <==> x.block <= I64_MAX && (x.DecodedEvent? ==> x.logIndex <= I64_MAX)
    ensures r.Ok? ==> Presents(r.value, x, m.target.params)
  {
    r := PostgresRecord(KindOf(m), m.target.params, RowOf(x));
  }

  lemma CommittedReadsBackFromMongo(m: Monitor, x: Decoded)
    requires EncodesFor(x, m)
    ensures var r := MongoRecord(m.target.params, RowOf(x));
            && (r.Ok? <==> x.block <= I64_MAX && (x.DecodedEvent? ==> x.logIndex <= I64_MAX))
            && (r.Ok? ==> Presents(r.value, x, m.target.params))
  {
    DocumentReadsBack(m.target.params, RowOf(x));
  }

  // ---- Stored results ----

  ghost predicate AllNarrow(store: Store) {
    forall id, row :: id in store.tables && row in store.tables[id] ==> Narrow(row)
  }

  lemma CommitKeepsNarrow(store: Store, commit: BlockCommit)
    requires Acceptable(store, commit) && AllNarrow(store)
    ensures AllNarrow(Committed(store, commit))
  {
    forall id, row | id in store.tables && row in Committed(store, commit).tables[id]
      ensures Narrow(row)
    {
      if row !in store.tables[id] {
        var mine := Select(commit.results, id);
        assert row in RowsOf(mine);
        var i :| 0 <= i < |mine| && RowsOf(mine)[i] == row;
        SelectMember(commit.results, id, mine[i]);
        assert ResultFits(mine[i], Locked(store, commit));
      }
    }
  }

  lemma StepKeepsNarrow(net: Network, w: World, step: Step, w': World)
    requires Next(net, w, step, w') && AllNarrow(w.store)
    ensures AllNarrow(w'.store)
  {
    match step
    case CommitNext(chain, reply) =>
      if !reply.Refused? {
        CommitKeepsNarrow(w.store, CommitOf(chain, w.polls[chain]));
      }
    case _ =>
  }

  lemma {:induction false} RunKeepsNarrow(net: Network, run: seq<World>)
    requires IsRun(net, run)
    ensures AllNarrow(run[|run| - 1].store)
    decreases |run|
  {
    if |run| == 1 {
    } else {
      var before := run[..|run| - 1];
      assert IsRun(net, before);
      RunKeepsNarrow(net, before);
      assert Linked(net, run[|run| - 2], run[|run| - 1]);
      var step :| Next(net, run[|run| - 2], step, run[|run| - 1]);
      StepKeepsNarrow(net, run[|run| - 2], step, run[|run| - 1]);
    }
  }

  /** What storage has accepted it could hold. */
  lemma StoredNarrow(net: Network, w: World, id: nat, row: Row)
    requires Reachable(net, w) && row in Table(w.store, id)
    ensures Narrow(row)
  {
    var run :| IsRun(net, run) && run[|run| - 1] == w;
    RunKeepsNarrow(net, run);
  }

  lemma RowKind(row: Row, net: Network, m: Monitor, e: Option<Expression>)
    requires ShowsSoFar(row, net, m, e)
    ensures row.logIndex.None? <==> m.target.CallTarget?
  {
    var number: U64 :| m.start <= number < Behind(m) && ShowsBlock(row, net, Definition(m), e, number);
  }

  /** In every reachable world, whatever a table holds can be read back: both adapters show the row's
      transaction, log index, block and values. */
  method StoredReadsBack(ghost net: Network, ghost w: World, m: Monitor, row: Row) returns (r: Result<Record>)
    requires WellTyped(net.d) && Reachable(net, w) && m.id in w.store.monitors && w.store.monitors[m.id] == m
    requires row in Table(w.store, m.id)
    ensures |row.params| == |m.target.params|
    ensures r == Ok(Record(row.txHash, row.logIndex, row.block, Canonical(m.target.params, row.params)))
    ensures r == MongoRecord(m.target.params, row)
  {
    StoredValuesTyped(net, w, m.id, row);
    ExactlyOnceAlways(net, w, m.id);
    ghost var e := HasStoredCondition(net, w, m.id);
    StoredRowShows(net, w, m.id, e, row);
    RowKind(row, net, m, e);
    StoredNarrow(net, w, m.id, row);
    r := PostgresRecord(KindOf(m), m.target.params, row);
    DocumentReadsBack(m.target.params, row);
  }
}
