/** When a commit can go through: on a chain whose transactions and logs have unique identities, storage
    has no reason to refuse a prepared block other than a monitor deleted meanwhile. */
module CommitProgress {
  import opened Domain
  import opened Results
  import opened Abi
  import opened Indexer
  import opened BlockDecoder
  import opened Preparer
  import opened Scheduler
  import opened Storage
  import opened Protocol
  import opened ProtocolProofs
  import Postgres
  import Mongo

  // ---- What a chain guarantees ----

  ghost predicate UniqueTransactions(src: Source) {
    forall a: U64, b: U64, i: nat, j: nat | i < |src.transactions(a)| && j < |src.transactions(b)| ::
      src.transactions(a)[i].hash == src.transactions(b)[j].hash ==> a == b && i == j
  }

  predicate SameLog(a: Log, b: Log) {
    a.txHash == b.txHash && a.logIndex == b.logIndex
  }

  ghost predicate UniqueLogs(src: Source) {
    forall a: U64, b: U64, i: nat, j: nat | i < |src.logs(a)| && j < |src.logs(b)| ::
      SameLog(src.logs(a)[i], src.logs(b)[j]) ==> a == b && i == j
  }

  ghost predicate SmallIndices(src: Source) {
    forall n: U64, log :: log in src.logs(n) ==> log.logIndex.Some? ==> log.logIndex.value <= I64_MAX
  }

  /** A finalized chain as every EVM chain is. */
  ghost predicate SoundChain(src: Source) {
    ValidSource(src) && UniqueTransactions(src) && UniqueLogs(src) && SmallIndices(src)
  }

  // ---- Rows come from distinct transactions and logs ----

  predicate OfTransaction(row: Row, txs: seq<Transaction>) {
    row.logIndex == None && exists i :: 0 <= i < |txs| && txs[i].hash == row.txHash
  }

  predicate OfLog(row: Row, logs: seq<Log>) {
    row.logIndex.Some? && exists i :: 0 <= i < |logs| && logs[i].txHash == Some(row.txHash) && logs[i].logIndex == row.logIndex
  }

  /** What one transaction gives a monitor: at most one call, its own. */
  lemma TxGives(d: Decoders, m: Monitor, number: U64, succeeded: Hash -> bool, tx: Transaction)
    ensures var hits := TxHits(d, m, number, succeeded)(tx);
            && |hits| <= 1
            && forall x :: x in hits ==>
                 && x.DecodedCall? && m.target.CallTarget? && x.monitor == m.id && x.block == number && x.txHash == tx.hash
                 && (WellTyped(d) ==> |x.params| == |m.target.params|)
  {
    var layout := LayoutOf(m);
    assert CallDecode(d, number, tx)(layout) == CallContextOf(d, number, tx, layout);
    if layout.Calls? && |tx.input| >= 4 && d.call(layout.types, tx.input[4..]).Some? {
      assert WellTyped(d) ==> Typed(d.call(layout.types, tx.input[4..]).value, layout.types, false);
    }
  }

  /** What one log gives a monitor: at most one event, its own. */
  lemma LogGives(d: Decoders, m: Monitor, number: U64, log: Log)
    ensures var hits := LogHits(d, m, number)(log);
            && |hits| <= 1
            && forall x :: x in hits ==>
                 && x.DecodedEvent? && m.target.EventTarget? && x.monitor == m.id && x.block == number
                 && Some(x.txHash) == log.txHash && Some(x.logIndex) == log.logIndex
                 && (WellTyped(d) ==> |x.params| == |m.target.params|)
  {
    var layout := LayoutOf(m);
    assert EventDecode(d, number, log)(layout) == EventContextOf(d, number, log, layout);
    if layout.Events? && log.topics != [] && d.log(layout.params, log.topics[0], log.topics, log.data).Some? && WellTyped(d) {
      InterleaveTyped(layout.params, d.log(layout.params, log.topics[0], log.topics, log.data).value);
    }
  }

  lemma {:induction false} CallRowsUnique(d: Decoders, m: Monitor, number: U64, txs: seq<Transaction>, succeeded: Hash -> bool)
    requires forall i, j :: 0 <= i < j < |txs| ==> txs[i].hash != txs[j].hash
    ensures var rows := RowsOf(ScanCalls(d, m, number, txs, succeeded));
            UniqueRows(rows) && forall k :: 0 <= k < |rows| ==> OfTransaction(rows[k], txs)
  {
    if txs == [] {
    } else {
      var init, last := txs[..|txs| - 1], txs[|txs| - 1];
      CallRowsUnique(d, m, number, init, succeeded);
      TxGives(d, m, number, succeeded, last);
      var hits := TxHits(d, m, number, succeeded)(last);
      var before, more := RowsOf(ScanCalls(d, m, number, init, succeeded)), RowsOf(hits);
      assert forall k :: 0 <= k < |more| ==> hits[k] in hits && more[k].txHash == last.hash && more[k].logIndex == None;
      RowsConcat(ScanCalls(d, m, number, init, succeeded), hits);
      forall k | 0 <= k < |before|
        ensures OfTransaction(before[k], txs) && before[k].txHash != last.hash
      {
        var i :| 0 <= i < |init| && init[i].hash == before[k].txHash;
        assert txs[i] == init[i];
      }
      assert txs[|txs| - 1].hash == last.hash;
    }
  }

  lemma {:induction false} EventRowsUnique(d: Decoders, m: Monitor, number: U64, logs: seq<Log>)
    requires forall i, j :: 0 <= i < j < |logs| ==> !SameLog(logs[i], logs[j])
    ensures var rows := RowsOf(ScanEvents(d, m, number, logs));
            UniqueRows(rows) && forall k :: 0 <= k < |rows| ==> OfLog(rows[k], logs)
  {
    if logs == [] {
    } else {
      var init, last := logs[..|logs| - 1], logs[|logs| - 1];
      EventRowsUnique(d, m, number, init);
      LogGives(d, m, number, last);
      var hits := LogHits(d, m, number)(last);
      var before, more := RowsOf(ScanEvents(d, m, number, init)), RowsOf(hits);
      assert forall k :: 0 <= k < |more| ==>
        hits[k] in hits && Some(more[k].txHash) == last.txHash && more[k].logIndex == last.logIndex && more[k].logIndex.Some?;
      RowsConcat(ScanEvents(d, m, number, init), hits);
      forall k | 0 <= k < |before|
        ensures OfLog(before[k], logs) && (Some(before[k].txHash) != last.txHash || before[k].logIndex != last.logIndex)
      {
        var i :| 0 <= i < |init| && init[i].txHash == Some(before[k].txHash) && init[i].logIndex == before[k].logIndex;
        assert logs[i] == init[i] && !SameLog(logs[i], last);
      }
      assert logs[|logs| - 1] == last;
    }
  }

  /** The row identifies a transaction, or a log, of that block. */
  predicate OfBlock(row: Row, src: Source, number: U64) {
    OfTransaction(row, src.transactions(number)) || OfLog(row, src.logs(number))
  }

  lemma BlockRowsUnique(d: Decoders, src: Source, m: Monitor, number: U64)
    requires UniqueTransactions(src) && UniqueLogs(src)
    ensures var rows := RowsOf(ScanBlock(d, src, m, number));
            UniqueRows(rows) && forall k :: 0 <= k < |rows| ==> OfBlock(rows[k], src, number)
  {
    if m.target.CallTarget? {
      CallRowsUnique(d, m, number, src.transactions(number), src.succeeded);
      ScanEventsOfCall(d, m, number, src.logs(number));
      assert ScanBlock(d, src, m, number) == ScanCalls(d, m, number, src.transactions(number), src.succeeded);
    } else {
      forall i, j | 0 <= i < j < |src.logs(number)|
        ensures !SameLog(src.logs(number)[i], src.logs(number)[j])
      {
      }
      EventRowsUnique(d, m, number, src.logs(number));
      ScanCallsOfEvent(d, m, number, src.transactions(number), src.succeeded);
      assert ScanBlock(d, src, m, number) == ScanEvents(d, m, number, src.logs(number));
    }
  }

  ghost predicate OfBlocks(row: Row, src: Source, from: int, upto: int)
    requires upto <= U64_MAX + 1
  {
    exists b: U64 :: from <= b < upto && OfBlock(row, src, b)
  }

  ghost predicate UniqueWithin(rows: seq<Row>, src: Source, from: int, upto: int)
    requires upto <= U64_MAX + 1
  {
    UniqueRows(rows) && forall k :: 0 <= k < |rows| ==> OfBlocks(rows[k], src, from, upto)
  }

  /** A direct scan never yields the same identity twice. */
  lemma {:induction false} ScanUnique(net: Network, m: Monitor, from: int, upto: int)
    requires 0 <= from && upto <= U64_MAX + 1
    requires UniqueTransactions(net.source(m.chain)) && UniqueLogs(net.source(m.chain))
    ensures UniqueWithin(ScanRange(net, m, from, upto), net.source(m.chain), from, upto)
    decreases upto - from
  {
    if from >= upto {
      assert ScanRange(net, m, from, upto) == [];
    } else {
      ScanUnique(net, m, from, upto - 1);
      ScanOneMore(net, m, from, upto);
    }
  }

  lemma ScanOneMore(net: Network, m: Monitor, from: int, upto: int)
    requires 0 <= from < upto <= U64_MAX + 1
    requires UniqueTransactions(net.source(m.chain)) && UniqueLogs(net.source(m.chain))
    requires UniqueWithin(ScanRange(net, m, from, upto - 1), net.source(m.chain), from, upto - 1)
    ensures UniqueWithin(ScanRange(net, m, from, upto), net.source(m.chain), from, upto)
  {
    var src, number: U64 := net.source(m.chain), upto - 1;
    BlockRowsUnique(net.d, src, m, number);
    AppendUnique(src, ScanRange(net, m, from, number), RowsOf(ScanBlock(net.d, src, m, number)), from, number);
  }

  lemma AppendUnique(src: Source, before: seq<Row>, more: seq<Row>, from: int, number: U64)
    requires UniqueTransactions(src) && UniqueLogs(src) && from <= number
    requires UniqueWithin(before, src, from, number)
    requires UniqueRows(more) && forall k :: 0 <= k < |more| ==> OfBlock(more[k], src, number)
    ensures UniqueWithin(before + more, src, from, number + 1)
  {
  }

  // ---- Uniqueness does not depend on order ----

  lemma {:induction false} Twice<T>(s: seq<T>, x: T)
    requires multiset(s)[x] >= 2
    ensures exists i, j :: 0 <= i < j < |s| && s[i] == x && s[j] == x
  {
    var init, last := s[..|s| - 1], s[|s| - 1];
    assert s == init + [last];
    if multiset(init)[x] >= 2 {
      Twice(init, x);
      var i, j :| 0 <= i < j < |init| && init[i] == x && init[j] == x;
      assert s[i] == x && s[j] == x;
    } else {
      assert x in multiset(init);
      var i :| 0 <= i < |init| && init[i] == x;
      assert s[i] == x && s[|s| - 1] == x;
    }
  }

  lemma CountTwo<T>(s: seq<T>, i: nat, j: nat)
    requires i < j < |s| && s[i] == s[j]
    ensures multiset(s)[s[i]] >= 2
  {
    assert s == s[..j] + s[j..];
    assert s[i] in s[..j] && s[j] in s[j..];
  }

  lemma UniquePermutation(a: seq<Row>, b: seq<Row>)
    requires UniqueRows(a) && multiset(a) == multiset(b)
    ensures UniqueRows(b)
  {
    forall i, j | 0 <= i < j < |b|
      ensures !SameIdentity(b[i], b[j])
    {
      assert b[i] in multiset(a) && b[j] in multiset(a);
      if b[i] == b[j] {
        CountTwo(b, i, j);
        Twice(a, b[i]);
      } else {
        var k :| 0 <= k < |a| && a[k] == b[i];
        var l :| 0 <= l < |a| && a[l] == b[j];
        assert k < l || l < k;
      }
    }
  }

  // ---- Prepared results fit their monitor ----

  predicate FitsMonitor(x: Decoded, m: Monitor) {
    && x.monitor == m.id
    && x.DecodedCall? == m.target.CallTarget?
    && |x.params| == |m.target.params|
    && (x.DecodedEvent? ==> x.logIndex <= I64_MAX)
  }

  lemma {:induction false} CallsFit(d: Decoders, m: Monitor, number: U64, txs: seq<Transaction>, succeeded: Hash -> bool)
    requires WellTyped(d)
    ensures forall x :: x in ScanCalls(d, m, number, txs, succeeded) ==> FitsMonitor(x, m) && x.block == number
  {
    if txs == [] {
    } else {
      CallsFit(d, m, number, txs[..|txs| - 1], succeeded);
      TxGives(d, m, number, succeeded, txs[|txs| - 1]);
    }
  }

  lemma {:induction false} EventsFit(d: Decoders, m: Monitor, number: U64, logs: seq<Log>)
    requires WellTyped(d) && forall log :: log in logs ==> log.logIndex.Some? ==> log.logIndex.value <= I64_MAX
    ensures forall x :: x in ScanEvents(d, m, number, logs) ==> FitsMonitor(x, m) && x.block == number
  {
    if logs == [] {
    } else {
      EventsFit(d, m, number, logs[..|logs| - 1]);
      LogGives(d, m, number, logs[|logs| - 1]);
    }
  }

  lemma ScanFits(d: Decoders, src: Source, m: Monitor, number: U64, x: Decoded)
    requires WellTyped(d) && SmallIndices(src) && x in ScanBlock(d, src, m, number)
    ensures FitsMonitor(x, m) && x.block == number
  {
    CallsFit(d, m, number, src.transactions(number), src.succeeded);
    EventsFit(d, m, number, src.logs(number));
  }

  /** Whatever is prepared for a block is of a listed monitor, of its kind, with one value per parameter. */
  lemma PreparedFits(net: Network, chain: nat, p: Poll, x: Decoded) returns (j: nat)
    requires WellTyped(net.d) && SmallIndices(net.source(chain)) && PollShape(net, chain, p) && CanCommit(p) && x in p.ready[p.done]
    ensures j in p.plans[p.done].indices && j < |p.active| && FitsMonitor(x, p.active[j]) && x.block == p.plans[p.done].block
  {
    var number, src := p.plans[p.done].block, net.source(chain);
    j := PreparedOf(net, chain, p, x);
    SelectMember(p.ready[p.done], p.active[j].id, x);
    assert x in multiset(Select(p.ready[p.done], p.active[j].id));
    assert x in multiset(ScanBlock(net.d, src, p.active[j], number));
    ScanFits(net.d, src, p.active[j], number, x);
  }

  lemma PreparedOf(net: Network, chain: nat, p: Poll, x: Decoded) returns (j: nat)
    requires PollShape(net, chain, p) && CanCommit(p) && x in p.ready[p.done]
    ensures j in p.plans[p.done].indices && j < |p.active| && x.monitor == p.active[j].id
    ensures multiset(Select(p.ready[p.done], p.active[j].id)) ==
            multiset(ScanBlock(net.d, net.source(chain), p.active[j], p.plans[p.done].block))
  {
    var number := p.plans[p.done].block;
    assert OfPlanned(x, p.active, number, p.plans[p.done].indices);
    j :| 0 <= j < |p.active| && IsPlanned(p.active, j, number, p.plans[p.done].indices) && x.monitor == p.active[j].id;
    PlannedNeedsBlock(p.active, p.head, p.batch, p.plans, p.done, j);
  }

  // ---- The commit ----

  lemma NextRowsUnique(net: Network, m: Monitor, table: seq<Row>, rows: seq<Row>, block: U64)
    requires UniqueTransactions(net.source(m.chain)) && UniqueLogs(net.source(m.chain)) && ExactlyOnce(net, m, table)
    requires block == if m.cursor.Some? then m.cursor.value + 1 else m.start
    requires multiset(rows) == multiset(RowsOf(ScanBlock(net.d, net.source(m.chain), Definition(m), block)))
    ensures UniqueRows(table + rows)
  {
    ScanTo(net, m, table, block);
    ScanGrows(net, Definition(m), table, rows, block);
    ScanUnique(net, Definition(m), m.start, block + 1);
    UniquePermutation(ScanRange(net, Definition(m), m.start, block + 1), table + rows);
  }

  lemma ScanTo(net: Network, m: Monitor, table: seq<Row>, block: U64)
    requires ExactlyOnce(net, m, table) && block == if m.cursor.Some? then m.cursor.value + 1 else m.start
    ensures m.start <= block && multiset(table) == multiset(ScanRange(net, Definition(m), m.start, block))
  {
  }

  /** The rows of a commit never collide with the stored ones or with each other. */
  lemma CommitRowsUnique(net: Network, w: World, chain: nat, id: nat)
    requires SoundChain(net.source(chain)) && StoreOk(net, w.store, w.nextId)
    requires chain in w.polls && PollOk(net, w, chain, w.polls[chain]) && CanCommit(w.polls[chain])
    requires id in Ids(CommitOf(chain, w.polls[chain]).monitors) && id in w.store.monitors
    ensures UniqueRows(Table(w.store, id) + RowsOf(Select(w.polls[chain].ready[w.polls[chain].done], id)))
  {
    var p, m := w.polls[chain], w.store.monitors[id];
    assert MonitorOk(net, w.store, id, w.nextId);
    var j := CommitIdsAreLoaded(chain, p, id);
    assert p.active[j] in p.active;
    assert Agrees(m, p.active[j], p.progress[j]);
    assert m.start == p.active[j].start && m.chain == chain;
    NextPlanFollows(p.active, p.head, p.batch, p.plans, p.done, j);
    PreparedScan(net, chain, p, j);
    NextRowsUnique(net, m, w.store.tables[id], RowsOf(Select(p.ready[p.done], id)), p.plans[p.done].block);
  }

  /** Storage accepts a prepared block exactly if all its monitors still exist: no duplicate, no result of
      a wrong kind or shape, and no number too wide ever stands in the way. */
  lemma OnlyDeletionRefuses(net: Network, w: World, chain: nat)
    requires ValidNetwork(net) && SoundChain(net.source(chain))
    requires Reachable(net, w) && chain in w.polls && CanCommit(w.polls[chain])
    requires w.polls[chain].head <= I64_MAX
    ensures Acceptable(w.store, CommitOf(chain, w.polls[chain])) <==>
            forall m :: m in CommitOf(chain, w.polls[chain]).monitors ==> m.id in w.store.monitors
  {
    ReachableOk(net, w);
    var p := w.polls[chain];
    assert PollOk(net, w, chain, p);
    var commit := CommitOf(chain, p);
    if Acceptable(w.store, commit) {
      AcceptableNeedsAll(w.store, commit);
    }
    if forall m :: m in commit.monitors ==> m.id in w.store.monitors {
      PresentIsAcceptable(net, w, chain);
    }
  }

  /** Both databases can hold every prepared block whose monitors still exist, if ids and chain number fit
      64 signed bits and a row fits one statement: two columns for a call, three for an event, and one for
      each parameter. */
  lemma PreparedIsStorable(net: Network, w: World, chain: nat)
    requires ValidNetwork(net) && SoundChain(net.source(chain))
    requires Reachable(net, w) && chain in w.polls && CanCommit(w.polls[chain])
    requires w.polls[chain].head <= I64_MAX && chain <= I64_MAX
    requires forall m :: m in CommitOf(chain, w.polls[chain]).monitors ==> m.id in w.store.monitors && m.id <= I64_MAX
    ensures Mongo.Storable(w.store, CommitOf(chain, w.polls[chain]))
    ensures Postgres.Storable(w.store, CommitOf(chain, w.polls[chain])) <==>
            forall m :: m in CommitOf(chain, w.polls[chain]).monitors ==>
              |m.target.params| + (if m.target.CallTarget? then 2 else 3) <= 65535
  {
    var commit := CommitOf(chain, w.polls[chain]);
    OnlyDeletionRefuses(net, w, chain);
    forall m | m in commit.monitors
      ensures m.id in Ids(commit.monitors) && m.id in w.store.monitors && w.store.monitors[m.id].target == m.target
    {
      CommitTargetsAgree(net, w, chain, m);
    }
    StorableByWidth(w.store, commit);
  }

  lemma StorableByWidth(store: Store, commit: BlockCommit)
    requires Acceptable(store, commit) && commit.chain <= I64_MAX && forall m :: m in commit.monitors ==> m.id <= I64_MAX
    requires forall m :: m in commit.monitors ==>
               m.id in Ids(commit.monitors) && m.id in store.monitors && store.monitors[m.id].target == m.target
    ensures Mongo.Storable(store, commit)
    ensures Postgres.Storable(store, commit) <==>
            forall m :: m in commit.monitors ==> |m.target.params| + (if m.target.CallTarget? then 2 else 3) <= 65535
  {
    forall id | id in Ids(commit.monitors)
      ensures exists m :: m in commit.monitors && m.id == id
    {
      var k :| 0 <= k < |commit.monitors| && commit.monitors[k].id == id;
      assert commit.monitors[k] in commit.monitors;
    }
  }

  lemma AcceptableNeedsAll(store: Store, commit: BlockCommit)
    requires Acceptable(store, commit)
    ensures forall m :: m in commit.monitors ==> m.id in store.monitors
  {
    forall m | m in commit.monitors
      ensures m.id in store.monitors
    {
      assert m.id in Ids(commit.monitors);
      assert m.id in Locked(store, commit);
    }
  }

  lemma PresentIsLocked(net: Network, w: World, chain: nat)
    requires Reachable(net, w) && chain in w.polls && CanCommit(w.polls[chain])
    requires forall m :: m in CommitOf(chain, w.polls[chain]).monitors ==> m.id in w.store.monitors
    ensures var commit := CommitOf(chain, w.polls[chain]);
            Locked(w.store, commit).Keys == Ids(commit.monitors) && forall m :: m in commit.monitors ==> m.chain == chain
  {
    ReachableOk(net, w);
    var p := w.polls[chain];
    var commit := CommitOf(chain, p);
    assert PollOk(net, w, chain, p);
    forall k | 0 <= k < |commit.monitors|
      ensures commit.monitors[k].id in Locked(w.store, commit) && commit.monitors[k].chain == chain
    {
      var m := commit.monitors[k];
      assert m in commit.monitors;
      CommitTargetsAgree(net, w, chain, m);
      var j := p.plans[p.done].indices[k];
      assert j in p.plans[p.done].indices && p.active[j] in p.active;
    }
  }

  lemma PresentIsAcceptable(net: Network, w: World, chain: nat)
    requires ValidNetwork(net) && SoundChain(net.source(chain)) && StoreOk(net, w.store, w.nextId) && Reachable(net, w)
    requires chain in w.polls && PollOk(net, w, chain, w.polls[chain]) && CanCommit(w.polls[chain]) && w.polls[chain].head <= I64_MAX
    requires forall m :: m in CommitOf(chain, w.polls[chain]).monitors ==> m.id in w.store.monitors
    ensures Acceptable(w.store, CommitOf(chain, w.polls[chain]))
  {
    var p := w.polls[chain];
    var commit := CommitOf(chain, p);
    PresentIsLocked(net, w, chain);
    PlannedBelowHead(p);
    forall x | x in commit.results
      ensures ResultFits(x, Locked(w.store, commit))
    {
      var j := PreparedFits(net, chain, p, x);
      CommitIds(chain, p, j);
      assert x.monitor in Ids(commit.monitors);
      assert Agrees(w.store.monitors[x.monitor], p.active[j], p.progress[j]);
    }
    forall id | id in Ids(commit.monitors)
      ensures UniqueRows(Table(w.store, id) + RowsOf(Select(commit.results, id)))
    {
      assert id in Locked(w.store, commit);
      CommitRowsUnique(net, w, chain, id);
    }
  }

  lemma PlannedBelowHead(p: Poll)
    requires p.batch >= 1 && IsPlan(p.active, p.head, p.batch, p.plans) && p.done < |p.plans|
    ensures p.plans[p.done].block <= p.head
  {
    assert PlanOf(p.active, p.head, p.batch, p.plans[p.done]);
    var j := p.plans[p.done].indices[0];
    assert j in p.plans[p.done].indices;
    assert InShare(p.active[j], p.head, p.batch, p.plans[p.done].block);
  }
}
