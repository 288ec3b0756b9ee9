/** The storage contract: monitors with their cursors, one result table per monitor, and an atomic
    block commit that either changes every listed cursor together with all results, or nothing. */
module Storage {
  import opened Domain
  import opened Results

  /** A stored result; a call is identified by its transaction, an event also by its log index. */
  datatype Row = Row(txHash: Hash, logIndex: Option<U64>, block: U64, params: seq<Value>)

  function RowOf(x: Decoded): Row {
    match x
    case DecodedCall(_, block, txHash, _, _, params) => Row(txHash, None, block, params)
    case DecodedEvent(_, block, txHash, logIndex, params) => Row(txHash, Some(logIndex), block, params)
  }

  function RowsOf(results: seq<Decoded>): (r: seq<Row>)
    ensures |r| == |results|
  {
    seq(|results|, i requires 0 <= i < |results| => RowOf(results[i]))
  }

  predicate SameIdentity(a: Row, b: Row) {
    a.txHash == b.txHash && a.logIndex == b.logIndex
  }

  predicate UniqueRows(rows: seq<Row>) {
    forall i, j :: 0 <= i < j < |rows| ==> !SameIdentity(rows[i], rows[j])
  }

  datatype Store = Store(monitors: map<nat, Monitor>, tables: map<nat, seq<Row>>)

  datatype BlockCommit = BlockCommit(chain: nat, block: U64, monitors: seq<Monitor>, results: seq<Decoded>)

  function Ids(monitors: seq<Monitor>): set<nat> {
    set k | 0 <= k < |monitors| :: monitors[k].id
  }

  function Table(store: Store, id: nat): seq<Row> {
    if id in store.tables then store.tables[id] else []
  }

  /** The result belongs to a listed monitor of its own kind, with one value per parameter. */
  predicate ResultFits(x: Decoded, monitors: map<nat, Monitor>) {
    && x.monitor in monitors
    && x.DecodedCall? == monitors[x.monitor].target.CallTarget?
    && |x.params| == |monitors[x.monitor].target.params|
    && x.block <= I64_MAX
    && (x.DecodedEvent? ==> x.logIndex <= I64_MAX)
  }

  /** The rows a commit locks. */
  function Locked(store: Store, commit: BlockCommit): map<nat, Monitor> {
    map id | id in Ids(commit.monitors) && id in store.monitors && store.monitors[id].chain == commit.chain :: store.monitors[id]
  }

  predicate Acceptable(store: Store, commit: BlockCommit) {
    && (forall m :: m in commit.monitors ==> m.chain == commit.chain)
    && commit.block <= I64_MAX
    && Locked(store, commit).Keys == Ids(commit.monitors)
    && (forall x :: x in commit.results ==> ResultFits(x, Locked(store, commit)))
    && (forall id :: id in Ids(commit.monitors) ==> UniqueRows(Table(store, id) + RowsOf(Select(commit.results, id))))
  }

  /** A cursor moved to `block`. */
  function Advance(m: Monitor, block: U64): Monitor {
    m.(cursor := Some(block), completed := m.end.Some? && m.end.value <= block)
  }

  function Committed(store: Store, commit: BlockCommit): (r: Store)
    ensures r.monitors.Keys == store.monitors.Keys
  {
    Store(
      map id | id in store.monitors ::
        if id in Ids(commit.monitors) then Advance(store.monitors[id], commit.block) else store.monitors[id],
      map id | id in store.tables ::
        if id in Ids(commit.monitors) then store.tables[id] + RowsOf(Select(commit.results, id)) else store.tables[id])
  }

  /** What a storage adapter owes its caller: success means the whole commit took effect; an error means
      nothing did, or, when the acknowledgement was lost, that all of it did. */
  ghost predicate Atomic(before: Store, commit: BlockCommit, ok: bool, after: Store) {
    || (Acceptable(before, commit) && after == Committed(before, commit))
    || (!ok && after == before)
  }

  lemma RowsConcat(a: seq<Decoded>, b: seq<Decoded>)
    ensures RowsOf(a + b) == RowsOf(a) + RowsOf(b)
  {
  }

  lemma RowsRemove(b: seq<Decoded>, k: nat)
    requires k < |b|
    ensures multiset(b) == multiset(b[..k] + b[k + 1..]) + multiset{b[k]}
    ensures multiset(RowsOf(b)) == multiset(RowsOf(b[..k] + b[k + 1..])) + multiset{RowOf(b[k])}
  {
    var front, back := b[..k], b[k + 1..];
    assert b == front + [b[k]] + back;
    assert RowsOf(b) == RowsOf(front) + [RowOf(b[k])] + RowsOf(back);
    RowsConcat(front, back);
  }

  lemma {:induction false} RowsMultiset(a: seq<Decoded>, b: seq<Decoded>)
    requires multiset(a) == multiset(b)
    ensures multiset(RowsOf(a)) == multiset(RowsOf(b))
    decreases |a|
  {
    if a == [] {
      assert |multiset(b)| == |multiset(a)|;
    } else {
      assert a[0] in multiset(b);
      var k :| 0 <= k < |b| && b[k] == a[0];
      RowsRemove(a, 0);
      RowsRemove(b, k);
      assert a[..0] + a[1..] == a[1..];
      assert multiset(a[1..]) == multiset(a) - multiset{a[0]} == multiset(b[..k] + b[k + 1..]);
      RowsMultiset(a[1..], b[..k] + b[k + 1..]);
    }
  }
}
