/** The PostgreSQL adapter: one transaction locks and advances the listed monitors, then writes the
    results grouped by monitor, in chunks bounded by the statement's bind limit. */
module Postgres {
  import opened Domain
  import opened Results
  import opened Storage

  const BIND_LIMIT := 65535

  datatype ResultKind = CallResults | EventResults

  function KindOf(m: Monitor): ResultKind {
    if m.target.CallTarget? then CallResults else EventResults
  }

  /** Identity and position columns beside the parameters. */
  function FixedColumns(kind: ResultKind): nat {
    if kind.CallResults? then 2 else 3
  }

  // ---- Chunked inserts ----

  /** A connection inside a transaction; `failed` says whether the database failed a request. */
  class Connection {
    ghost var failed: bool

    constructor ()
      ensures !failed
    {
      failed := false;
    }

    /** One multi-row statement over rows of `width` binds, refused when the primary key would repeat. */
    method ExecuteInsert(table: seq<Row>, rows: seq<Row>, width: nat) returns (r: Result<seq<Row>>)
      requires width >= 1 && 1 <= |rows| && |rows| * width <= BIND_LIMIT
      requires UniqueRows(table)
      modifies this
      ensures r.Ok? ==> r.value == table + rows && UniqueRows(r.value)
      ensures r.Err? ==> failed || !UniqueRows(table + rows)
      ensures old(failed) ==> failed
    {
      if !UniqueRows(table + rows) {
        return Err;
      }
      if * {
        failed := true;
        return Err;
      }
      r := Ok(table + rows);
    }

    /** Any other request of the transaction, its final commit included. */
    method Request() returns (ok: bool)
      modifies this
      ensures old(failed) || !ok ==> failed
    {
      ok := *;
      failed := failed || !ok;
    }
  }

  lemma ChunkFits(width: nat, chunk: nat, count: nat)
    requires 1 <= width <= BIND_LIMIT && chunk == BIND_LIMIT / width && count <= chunk
    ensures 1 <= chunk && count * width <= BIND_LIMIT
  {
  }

  predicate RowFits(row: Row, kind: ResultKind, params: nat) {
    && |row.params| == params
    && row.block <= I64_MAX
    && (kind.CallResults? <==> row.logIndex.None?)
    && (row.logIndex.Some? ==> row.logIndex.value <= I64_MAX)
  }

  /** Nothing but the database stands in the way of inserting the rows. */
  ghost predicate Insertable(table: seq<Row>, rows: seq<Row>, kind: ResultKind, params: nat) {
    && UniqueRows(table + rows)
    && (forall row :: row in rows ==> RowFits(row, kind, params))
    && params + FixedColumns(kind) <= BIND_LIMIT
  }

  lemma UniquePrefix(table: seq<Row>, rows: seq<Row>, n: nat)
    requires UniqueRows(table + rows) && n <= |rows|
    ensures UniqueRows(table + rows[..n])
  {
    assert forall k :: 0 <= k < |table| + n ==> (table + rows[..n])[k] == (table + rows)[k];
  }

  /** Numbers that storage can hold. */
  predicate Narrow(row: Row) {
    row.block <= I64_MAX && (row.logIndex.Some? ==> row.logIndex.value <= I64_MAX)
  }

  /** One chunk: refused when a number is too wide, otherwise one statement. */
  method InsertChunk(conn: Connection, table: seq<Row>, part: seq<Row>, width: nat) returns (r: Result<seq<Row>>)
    requires UniqueRows(table) && 1 <= width && 1 <= |part| && |part| * width <= BIND_LIMIT
    modifies conn
    ensures r.Ok? ==> r.value == table + part && UniqueRows(r.value) && forall row :: row in part ==> Narrow(row)
    ensures r.Err? ==> conn.failed || !UniqueRows(table + part) || exists row :: row in part && !Narrow(row)
    ensures old(conn.failed) ==> conn.failed
  {
    if exists k :: 0 <= k < |part| && !Narrow(part[k]) {
      return Err;
    }
    r := conn.ExecuteInsert(table, part, width);
  }

  /** Writes one monitor's rows chunk by chunk: the table ends up as after one bulk insert. */
  method InsertResults(conn: Connection, table: seq<Row>, rows: seq<Row>, kind: ResultKind, params: nat) returns (r: Result<seq<Row>>)
    requires UniqueRows(table) && forall row :: row in rows ==> (kind.CallResults? <==> row.logIndex.None?)
    modifies conn
    ensures r.Ok? ==> r.value == table + rows && Insertable(table, rows, kind, params)
    ensures r.Err? ==> conn.failed || !Insertable(table, rows, kind, params)
    ensures old(conn.failed) ==> conn.failed
  {
    if exists k :: 0 <= k < |rows| && |rows[k].params| != params {
      ghost var k :| 0 <= k < |rows| && |rows[k].params| != params;
      assert rows[k] in rows && !RowFits(rows[k], kind, params);
      return Err;
    }
    var width := params + FixedColumns(kind);
    if width > BIND_LIMIT {
      return Err;
    }
    var chunk := BIND_LIMIT / width;
    ChunkFits(width, chunk, 0);
    var written := table;
    var from := 0;
    assert rows[..0] == [] && table + [] == table;
    while from < |rows|
      invariant 0 <= from <= |rows| && (old(conn.failed) ==> conn.failed)
      invariant written == table + rows[..from] && UniqueRows(written)
      invariant forall row :: row in rows[..from] ==> Narrow(row)
      decreases |rows| - from
    {
      var upto := if |rows| - from <= chunk then |rows| else from + chunk;
      var part := rows[from..upto];
      ChunkFits(width, chunk, |part|);
      var inserted := InsertChunk(conn, written, part, width);
      NextChunk(table, rows, from, upto);
      if inserted.Err? {
        return Err;
      }
      written := inserted.value;
      from := upto;
    }
    assert rows[..|rows|] == rows;
    r := Ok(written);
  }

  lemma NextChunk(table: seq<Row>, rows: seq<Row>, from: nat, upto: nat)
    requires from <= upto <= |rows|
    ensures table + rows[..from] + rows[from..upto] == table + rows[..upto]
    ensures forall row :: row in rows[..upto] ==> row in rows[..from] || row in rows[from..upto]
    ensures forall row :: row in rows[from..upto] ==> row in rows
    ensures UniqueRows(table + rows) ==> UniqueRows(table + rows[..upto])
  {
    assert rows[..upto] == rows[..from] + rows[from..upto];
    if UniqueRows(table + rows) {
      UniquePrefix(table, rows, upto);
    }
  }

  // ---- Grouping ----

  function Grouped(groups: map<nat, seq<Row>>, id: nat): seq<Row> {
    if id in groups then groups[id] else []
  }

  predicate Belongs(x: Decoded, rows: map<nat, Monitor>) {
    x.monitor in rows && x.DecodedCall? == rows[x.monitor].target.CallTarget?
  }

  /** The groups of the first `n` results: per monitor its own rows in order, and only groups with rows
      of a locked monitor of that kind. */
  ghost predicate GroupsOf(groups: map<nat, seq<Row>>, results: seq<Decoded>, rows: map<nat, Monitor>, kind: ResultKind) {
    forall id :: GroupAt(groups, results, rows, kind, id)
  }

  ghost predicate GroupAt(groups: map<nat, seq<Row>>, results: seq<Decoded>, rows: map<nat, Monitor>, kind: ResultKind, id: nat) {
    && (id in groups ==> id in rows && KindOf(rows[id]) == kind)
    && (id in rows && KindOf(rows[id]) == kind ==> Grouped(groups, id) == RowsOf(Select(results, id)))
  }

  lemma SelectMore(results: seq<Decoded>, x: Decoded, id: nat)
    ensures RowsOf(Select(results + [x], id)) == RowsOf(Select(results, id)) + if x.monitor == id then [RowOf(x)] else []
  {
  }

  lemma GroupMore(groups: map<nat, seq<Row>>, results: seq<Decoded>, rows: map<nat, Monitor>, kind: ResultKind, x: Decoded)
    requires GroupsOf(groups, results, rows, kind) && Belongs(x, rows) && KindOf(rows[x.monitor]) == kind
    ensures GroupsOf(groups[x.monitor := Grouped(groups, x.monitor) + [RowOf(x)]], results + [x], rows, kind)
  {
    var next := groups[x.monitor := Grouped(groups, x.monitor) + [RowOf(x)]];
    forall id
      ensures GroupAt(next, results + [x], rows, kind, id)
    {
      assert GroupAt(groups, results, rows, kind, id);
      SelectMore(results, x, id);
    }
  }

  lemma GroupOther(groups: map<nat, seq<Row>>, results: seq<Decoded>, rows: map<nat, Monitor>, kind: ResultKind, x: Decoded)
    requires GroupsOf(groups, results, rows, kind) && Belongs(x, rows) && KindOf(rows[x.monitor]) != kind
    ensures GroupsOf(groups, results + [x], rows, kind)
  {
    forall id
      ensures GroupAt(groups, results + [x], rows, kind, id)
    {
      assert GroupAt(groups, results, rows, kind, id);
      SelectMore(results, x, id);
    }
  }

  /** Splits results into call and event rows per monitor; refuses a result of a monitor that was not
      locked or is of the other kind. */
  method GroupResults(results: seq<Decoded>, rows: map<nat, Monitor>)
    returns (r: Result<(map<nat, seq<Row>>, map<nat, seq<Row>>)>)
    ensures r.Ok? <==> forall x :: x in results ==> Belongs(x, rows)
    ensures r.Ok? ==> GroupsOf(r.value.0, results, rows, CallResults) && GroupsOf(r.value.1, results, rows, EventResults)
  {
    var calls: map<nat, seq<Row>>, events: map<nat, seq<Row>> := map[], map[];
    var k := 0;
    assert GroupsOf(calls, [], rows, CallResults) && GroupsOf(events, [], rows, EventResults) by {
      assert RowsOf([]) == [];
    }
    assert results[..0] == [];
    while k < |results|
      invariant 0 <= k <= |results|
      invariant forall i :: 0 <= i < k ==> Belongs(results[i], rows)
      invariant GroupsOf(calls, results[..k], rows, CallResults) && GroupsOf(events, results[..k], rows, EventResults)
    {
      var x := results[k];
      assert x in results;
      if !Belongs(x, rows) {
        return Err;
      }
      assert results[..k + 1] == results[..k] + [x];
      if x.DecodedCall? {
        GroupMore(calls, results[..k], rows, CallResults, x);
        GroupOther(events, results[..k], rows, EventResults, x);
        calls := calls[x.monitor := Grouped(calls, x.monitor) + [RowOf(x)]];
      } else {
        GroupOther(calls, results[..k], rows, CallResults, x);
        GroupMore(events, results[..k], rows, EventResults, x);
        events := events[x.monitor := Grouped(events, x.monitor) + [RowOf(x)]];
      }
      k := k + 1;
    }
    assert results[..|results|] == results;
    r := Ok((calls, events));
  }

  // ---- The transaction ----

  /** The tables after the groups outside `rest` are written. */
  ghost predicate Written(before: map<nat, seq<Row>>, tables: map<nat, seq<Row>>, groups: map<nat, seq<Row>>, rest: set<nat>) {
    && tables.Keys == before.Keys
    && forall id {:trigger WrittenAt(before, tables, groups, rest, id)} :: id in before ==> WrittenAt(before, tables, groups, rest, id)
  }

  ghost predicate WrittenAt(before: map<nat, seq<Row>>, tables: map<nat, seq<Row>>, groups: map<nat, seq<Row>>, rest: set<nat>, id: nat)
    requires tables.Keys == before.Keys && id in before
  {
    tables[id] == before[id] + (if id in rest then [] else Grouped(groups, id)) && UniqueRows(tables[id])
  }

  predicate GroupFits(rows: seq<Row>, m: Monitor) {
    forall row :: row in rows ==> RowFits(row, KindOf(m), |m.target.params|)
  }

  /** Some group cannot be inserted into its table. */
  ghost predicate SomeBlocked(before: map<nat, seq<Row>>, groups: map<nat, seq<Row>>, monitors: map<nat, Monitor>, kind: ResultKind)
    requires groups.Keys <= monitors.Keys && groups.Keys <= before.Keys
  {
    exists id :: id in groups && !Insertable(before[id], groups[id], kind, |monitors[id].target.params|)
  }

  /** Writes every group, in whatever order the map yields them. */
  method WriteGroups(conn: Connection, before: map<nat, seq<Row>>, groups: map<nat, seq<Row>>, monitors: map<nat, Monitor>,
                     kind: ResultKind)
    returns (r: Result<map<nat, seq<Row>>>)
    requires forall id :: id in before ==> UniqueRows(before[id])
    requires groups.Keys <= monitors.Keys && groups.Keys <= before.Keys
    requires forall id :: id in groups ==> KindOf(monitors[id]) == kind
    requires forall id, row :: id in groups && row in groups[id] ==> (kind.CallResults? <==> row.logIndex.None?)
    modifies conn
    ensures r.Ok? ==> Written(before, r.value, groups, {}) && forall id :: id in r.value ==> UniqueRows(r.value[id])
    ensures r.Ok? ==> forall id :: id in groups ==> GroupFits(groups[id], monitors[id])
    ensures r.Err? ==> conn.failed || SomeBlocked(before, groups, monitors, kind)
    ensures old(conn.failed) ==> conn.failed
  {
    var tables := before;
    var rest := groups.Keys;
    forall id | id in before
      ensures WrittenAt(before, tables, groups, rest, id)
    {
    }
    while rest != {}
      invariant rest <= groups.Keys && (old(conn.failed) ==> conn.failed)
      invariant Written(before, tables, groups, rest)
      invariant forall id :: id in groups && id !in rest ==> GroupFits(groups[id], monitors[id])
      decreases rest
    {
      var id :| id in rest;
      assert WrittenAt(before, tables, groups, rest, id);
      var inserted := InsertResults(conn, tables[id], groups[id], kind, |monitors[id].target.params|);
      if inserted.Err? {
        return Err;
      }
      forall other | other in before
        ensures WrittenAt(before, tables[id := inserted.value], groups, rest - {id}, other)
      {
        assert WrittenAt(before, tables, groups, rest, other);
      }
      tables := tables[id := inserted.value];
      rest := rest - {id};
    }
    forall id | id in tables
      ensures UniqueRows(tables[id])
    {
      assert WrittenAt(before, tables, groups, {}, id);
    }
    r := Ok(tables);
  }

  method CollectIds(monitors: seq<Monitor>) returns (r: Result<set<nat>>)
    ensures r.Ok? ==> r.value == Ids(monitors)
    ensures r.Ok? <==> forall m :: m in monitors ==> m.id <= I64_MAX
  {
    var ids: set<nat> := {};
    for k := 0 to |monitors|
      invariant ids == set i | 0 <= i < k :: monitors[i].id
      invariant forall i :: 0 <= i < k ==> monitors[i].id <= I64_MAX
    {
      if monitors[k].id > I64_MAX {
        return Err;
      }
      ids := ids + {monitors[k].id};
    }
    r := Ok(ids);
  }

  lemma SameSize(a: set<nat>, b: set<nat>)
    requires a <= b && |a| == |b|
    ensures a == b
  {
    if a != b {
      var x :| x in b && x !in a;
      SubsetSize(a, b - {x});
    }
  }

  lemma {:induction false} SubsetSize(a: set<nat>, b: set<nat>)
    requires a <= b
    ensures |a| <= |b|
  {
    if a == {} {
    } else {
      var x :| x in a;
      SubsetSize(a - {x}, b - {x});
    }
  }

  lemma RowsComplete(commit: BlockCommit, locked: map<nat, Monitor>, calls: map<nat, seq<Row>>, events: map<nat, seq<Row>>,
                     table: seq<Row>, id: nat)
    requires GroupAt(calls, commit.results, locked, CallResults, id) && GroupAt(events, commit.results, locked, EventResults, id)
    ensures table + Grouped(calls, id) + Grouped(events, id) ==
            if id in locked then table + RowsOf(Select(commit.results, id)) else table
  {
  }

  lemma TableComplete(before: map<nat, seq<Row>>, commit: BlockCommit, locked: map<nat, Monitor>, calls: map<nat, seq<Row>>,
                      events: map<nat, seq<Row>>, middle: map<nat, seq<Row>>, after: map<nat, seq<Row>>, id: nat)
    requires GroupAt(calls, commit.results, locked, CallResults, id) && GroupAt(events, commit.results, locked, EventResults, id)
    requires Written(before, middle, calls, {}) && Written(middle, after, events, {}) && id in before
    ensures after[id] == if id in locked then before[id] + RowsOf(Select(commit.results, id)) else before[id]
    ensures UniqueRows(after[id])
  {
    RowsComplete(commit, locked, calls, events, before[id], id);
    assert WrittenAt(before, middle, calls, {}, id) && WrittenAt(middle, after, events, {}, id);
    assert after[id] == before[id] + Grouped(calls, id) + Grouped(events, id);
  }

  lemma CommitComplete(before: Store, commit: BlockCommit, calls: map<nat, seq<Row>>, events: map<nat, seq<Row>>,
                       middle: map<nat, seq<Row>>, after: map<nat, seq<Row>>)
    requires before.tables.Keys == before.monitors.Keys && Locked(before, commit).Keys == Ids(commit.monitors)
    requires GroupsOf(calls, commit.results, Locked(before, commit), CallResults)
    requires GroupsOf(events, commit.results, Locked(before, commit), EventResults)
    requires Written(before.tables, middle, calls, {}) && Written(middle, after, events, {})
    ensures after == Committed(before, commit).tables
    ensures forall id :: id in Ids(commit.monitors) ==> UniqueRows(Table(before, id) + RowsOf(Select(commit.results, id)))
  {
    var locked, ids := Locked(before, commit), Ids(commit.monitors);
    forall id | id in before.tables
      ensures after[id] == if id in ids then before.tables[id] + RowsOf(Select(commit.results, id)) else before.tables[id]
      ensures UniqueRows(after[id])
    {
      assert GroupAt(calls, commit.results, locked, CallResults, id);
      assert GroupAt(events, commit.results, locked, EventResults, id);
      TableComplete(before.tables, commit, locked, calls, events, middle, after, id);
    }
    forall id | id in ids
      ensures UniqueRows(Table(before, id) + RowsOf(Select(commit.results, id)))
    {
      assert id in locked;
    }
  }

  lemma ResultsFit(commit: BlockCommit, locked: map<nat, Monitor>, calls: map<nat, seq<Row>>, events: map<nat, seq<Row>>)
    requires forall x :: x in commit.results ==> Belongs(x, locked)
    requires GroupsOf(calls, commit.results, locked, CallResults) && GroupsOf(events, commit.results, locked, EventResults)
    requires calls.Keys <= locked.Keys && events.Keys <= locked.Keys
    requires forall id :: id in calls ==> GroupFits(calls[id], locked[id])
    requires forall id :: id in events ==> GroupFits(events[id], locked[id])
    ensures forall x :: x in commit.results ==> ResultFits(x, locked)
  {
    forall x | x in commit.results
      ensures ResultFits(x, locked)
    {
      var mine := Select(commit.results, x.monitor);
      SelectMember(commit.results, x.monitor, x);
      var k :| 0 <= k < |mine| && mine[k] == x;
      assert GroupAt(calls, commit.results, locked, CallResults, x.monitor);
      assert GroupAt(events, commit.results, locked, EventResults, x.monitor);
      var group := Grouped(if KindOf(locked[x.monitor]) == CallResults then calls else events, x.monitor);
      assert group == RowsOf(mine) && group[k] == RowOf(x) && RowOf(x) in group;
    }
  }

  lemma {:induction false} SelectKinds(results: seq<Decoded>, rows: map<nat, Monitor>, id: nat)
    requires forall x :: x in results ==> Belongs(x, rows)
    ensures forall row :: row in RowsOf(Select(results, id)) ==>
              id in rows && (KindOf(rows[id]) == CallResults <==> row.logIndex.None?)
  {
    var mine := Select(results, id);
    forall k | 0 <= k < |mine|
      ensures id in rows && (KindOf(rows[id]) == CallResults <==> RowOf(mine[k]).logIndex.None?)
    {
      SelectMember(results, id, mine[k]);
    }
  }

  lemma GroupKinds(groups: map<nat, seq<Row>>, results: seq<Decoded>, rows: map<nat, Monitor>, kind: ResultKind)
    requires forall x :: x in results ==> Belongs(x, rows)
    requires GroupsOf(groups, results, rows, kind)
    ensures forall id, row :: id in groups && row in groups[id] ==> (kind.CallResults? <==> row.logIndex.None?)
  {
    forall id | id in groups
      ensures forall row :: row in groups[id] ==> (kind.CallResults? <==> row.logIndex.None?)
    {
      SelectKinds(results, rows, id);
      assert GroupAt(groups, results, rows, kind, id);
    }
  }

  lemma KnownGroups(calls: map<nat, seq<Row>>, events: map<nat, seq<Row>>, results: seq<Decoded>, rows: map<nat, Monitor>)
    requires GroupsOf(calls, results, rows, CallResults) && GroupsOf(events, results, rows, EventResults)
    ensures forall id :: id in calls ==> id in rows && KindOf(rows[id]) == CallResults
    ensures forall id :: id in events ==> id in rows && KindOf(rows[id]) == EventResults
  {
    assert forall id :: id in calls ==> GroupAt(calls, results, rows, CallResults, id);
    assert forall id :: id in events ==> GroupAt(events, results, rows, EventResults, id);
  }

  /** What PostgreSQL can store beside what every commit must meet: ids and chain in 64 signed bits, and
      rows within the bind limit. */
  ghost predicate Storable(store: Store, commit: BlockCommit) {
    && Acceptable(store, commit)
    && commit.chain <= I64_MAX
    && (forall m :: m in commit.monitors ==> m.id <= I64_MAX)
    && (forall id :: id in Ids(commit.monitors) && id in store.monitors ==>
          |store.monitors[id].target.params| + FixedColumns(KindOf(store.monitors[id])) <= BIND_LIMIT)
  }

  /** Every group of a commit that can be stored can be inserted. */
  lemma StorableIsInsertable(store: Store, commit: BlockCommit, groups: map<nat, seq<Row>>, kind: ResultKind, id: nat)
    requires Storable(store, commit) && id in Locked(store, commit) && id in groups && id in store.tables
    requires GroupAt(groups, commit.results, Locked(store, commit), kind, id)
    ensures Insertable(store.tables[id], groups[id], kind, |Locked(store, commit)[id].target.params|)
  {
    var locked := Locked(store, commit);
    var mine := Select(commit.results, id);
    assert groups[id] == RowsOf(mine) && id in Ids(commit.monitors);
    forall k | 0 <= k < |mine|
      ensures RowFits(RowOf(mine[k]), kind, |locked[id].target.params|)
    {
      SelectMember(commit.results, id, mine[k]);
      assert ResultFits(mine[k], locked);
    }
    assert Table(store, id) == store.tables[id];
  }

  class PostgresStorage {
    var store: Store

    ghost predicate Valid()
      reads this
    {
      && store.tables.Keys == store.monitors.Keys
      && forall id :: id in store.tables ==> UniqueRows(store.tables[id])
    }

    constructor (store: Store)
      requires store.tables.Keys == store.monitors.Keys && forall id :: id in store.tables ==> UniqueRows(store.tables[id])
      ensures Valid() && this.store == store
    {
      this.store := store;
    }

    /** Writes the grouped results inside the transaction. */
    method WriteResults(conn: Connection, commit: BlockCommit, locked: map<nat, Monitor>) returns (r: Result<map<nat, seq<Row>>>)
      requires Valid() && locked == Locked(store, commit) && locked.Keys == Ids(commit.monitors)
      modifies conn
      ensures r.Ok? ==> r.value == Committed(store, commit).tables
      ensures r.Ok? ==> forall x :: x in commit.results ==> ResultFits(x, locked)
      ensures r.Ok? ==> forall id :: id in Ids(commit.monitors) ==> UniqueRows(Table(store, id) + RowsOf(Select(commit.results, id)))
      ensures r.Err? ==> conn.failed || !Storable(store, commit)
      ensures old(conn.failed) ==> conn.failed
    {
      var grouped := GroupResults(commit.results, locked);
      if grouped.Err? {
        MisplacedIsUnstorable(commit);
        return Err;
      }
      var (calls, events) := grouped.value;
      KnownGroups(calls, events, commit.results, locked);
      GroupKinds(calls, commit.results, locked, CallResults);
      GroupKinds(events, commit.results, locked, EventResults);
      var middle := WriteGroups(conn, store.tables, calls, locked, CallResults);
      if middle.Err? {
        if !conn.failed {
          CallsBlocked(commit, calls);
        }
        return Err;
      }
      var after := WriteGroups(conn, middle.value, events, locked, EventResults);
      if after.Err? {
        if !conn.failed {
          EventsBlocked(commit, calls, events, middle.value);
        }
        return Err;
      }
      CommitComplete(store, commit, calls, events, middle.value, after.value);
      ResultsFit(commit, locked, calls, events);
      r := after;
    }

    lemma MisplacedIsUnstorable(commit: BlockCommit)
      requires exists x :: x in commit.results && !Belongs(x, Locked(store, commit))
      ensures !Storable(store, commit)
    {
      var x :| x in commit.results && !Belongs(x, Locked(store, commit));
      assert !ResultFits(x, Locked(store, commit));
    }

    lemma CallsBlocked(commit: BlockCommit, calls: map<nat, seq<Row>>)
      requires Valid() && Locked(store, commit).Keys == Ids(commit.monitors)
      requires GroupsOf(calls, commit.results, Locked(store, commit), CallResults)
      requires calls.Keys <= Locked(store, commit).Keys && SomeBlocked(store.tables, calls, Locked(store, commit), CallResults)
      ensures !Storable(store, commit)
    {
      var id :| id in calls && !Insertable(store.tables[id], calls[id], CallResults, |Locked(store, commit)[id].target.params|);
      assert GroupAt(calls, commit.results, Locked(store, commit), CallResults, id);
      if Storable(store, commit) {
        StorableIsInsertable(store, commit, calls, CallResults, id);
      }
    }

    /** Event tables are untouched by the call groups. */
    lemma EventsBlocked(commit: BlockCommit, calls: map<nat, seq<Row>>, events: map<nat, seq<Row>>, middle: map<nat, seq<Row>>)
      requires Valid() && Locked(store, commit).Keys == Ids(commit.monitors)
      requires GroupsOf(calls, commit.results, Locked(store, commit), CallResults)
      requires GroupsOf(events, commit.results, Locked(store, commit), EventResults)
      requires Written(store.tables, middle, calls, {})
      requires events.Keys <= Locked(store, commit).Keys && SomeBlocked(middle, events, Locked(store, commit), EventResults)
      ensures !Storable(store, commit)
    {
      var locked := Locked(store, commit);
      var id :| id in events && !Insertable(middle[id], events[id], EventResults, |locked[id].target.params|);
      assert GroupAt(calls, commit.results, locked, CallResults, id) && GroupAt(events, commit.results, locked, EventResults, id);
      assert WrittenAt(store.tables, middle, calls, {}, id);
      assert middle[id] == store.tables[id];
      if Storable(store, commit) {
        StorableIsInsertable(store, commit, events, EventResults, id);
      }
    }

    /** The listed monitors' rows, locked for update. */
    function Lock(ids: set<nat>, chain: nat): (r: map<nat, Monitor>)
      reads this
    {
      map id | id in ids && id in store.monitors && store.monitors[id].chain == chain :: store.monitors[id]
    }

    /** The whole commit, or nothing, or, when only the acknowledgement is lost, the whole commit and an
        error. Unless the database fails, an error means that the commit cannot be stored. */
    method CommitBlock(conn: Connection, commit: BlockCommit) returns (ok: bool)
      requires Valid()
      modifies this, conn
      ensures Valid() && Atomic(old(store), commit, ok, store)
      ensures !ok ==> conn.failed || !Storable(old(store), commit)
    {
      if exists k :: 0 <= k < |commit.monitors| && commit.monitors[k].chain != commit.chain {
        return false;
      }
      ok := conn.Request();
      if !ok {
        return;
      }
      var ids := CollectIds(commit.monitors);
      if ids.Err? || commit.block > I64_MAX || commit.chain > I64_MAX {
        return false;
      }
      var locked := Lock(ids.value, commit.chain);
      var monitors := map id | id in store.monitors ::
        if id in locked then Advance(store.monitors[id], commit.block) else store.monitors[id];
      assert locked == Locked(store, commit);
      if |locked.Keys| != |ids.value| {
        return false;
      }
      SameSize(locked.Keys, ids.value);
      ok := StoreResults(conn, commit, locked, monitors);
    }

    /** The rest of the transaction: results, then the commit, whose acknowledgement may get lost. */
    method StoreResults(conn: Connection, commit: BlockCommit, locked: map<nat, Monitor>, monitors: map<nat, Monitor>) returns (ok: bool)
      requires Valid() && locked == Locked(store, commit) && locked.Keys == Ids(commit.monitors) && commit.block <= I64_MAX
      requires forall m :: m in commit.monitors ==> m.chain == commit.chain
      requires monitors == Committed(store, commit).monitors
      modifies this, conn
      ensures Valid() && Atomic(old(store), commit, ok, store)
      ensures !ok ==> conn.failed || !Storable(old(store), commit)
    {
      var tables := WriteResults(conn, commit, locked);
      if tables.Err? {
        return false;
      }
      ok := conn.Request();
      var applied: bool := *;
      if ok || applied {
        store := Store(monitors, tables.value);
      }
    }
  }
}
