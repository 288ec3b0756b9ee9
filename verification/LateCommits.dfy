/** Commits whose outcome is decided late. The database may still hold a finished transaction, with its
    monitors' rows locked, after the worker was told that the commit failed: its poll is over, the next one
    may have loaded its monitors, and only then the transaction lands or is dropped. Each monitor's table
    is still exactly the scan of its committed range, in every run. */
module LateCommits {
  import opened Domain
  import opened Results
  import opened Indexer
  import opened Preparer
  import opened Storage
  import opened Protocol
  import opened ProtocolProofs

  datatype LateWorld = LateWorld(base: World, pending: set<BlockCommit>)

  datatype LateStep =
    | Timely(step: Step)
    | Postpone(chain: nat)        // reported as an error, outcome open, rows locked
    | Land(commit: BlockCommit)
    | Drop(commit: BlockCommit)

  /** A pending transaction locks the monitor's row. */
  ghost predicate Held(pending: set<BlockCommit>, id: nat) {
    exists commit :: commit in pending && id in Ids(commit.monitors)
  }

  ghost predicate NoneHeld(pending: set<BlockCommit>, ids: set<nat>) {
    forall id :: id in ids ==> !Held(pending, id)
  }

  /** A step that writes a locked row waits. */
  ghost predicate Unblocked(w: World, pending: set<BlockCommit>, step: Step) {
    match step
    case SetEnabled(id, _) => !Held(pending, id)
    case Delete(id) => !Held(pending, id)
    case CommitNext(chain, reply) =>
      chain in w.polls && CanCommit(w.polls[chain]) &&
      (!reply.Refused? ==> NoneHeld(pending, Ids(CommitOf(chain, w.polls[chain]).monitors)))
    case _ => true
  }

  ghost predicate LateNext(net: Network, l: LateWorld, step: LateStep, l': LateWorld) {
    match step
    case Timely(s) =>
      Unblocked(l.base, l.pending, s) && Next(net, l.base, s, l'.base) && l'.pending == l.pending
    case Postpone(chain) =>
      && chain in l.base.polls && CanCommit(l.base.polls[chain])
      && var commit := CommitOf(chain, l.base.polls[chain]);
      && Acceptable(l.base.store, commit) && NoneHeld(l.pending, Ids(commit.monitors))
      && l' == LateWorld(l.base.(polls := l.base.polls - {chain}), l.pending + {commit})
    case Land(commit) =>
      && commit in l.pending
      && l' == LateWorld(l.base.(store := Committed(l.base.store, commit)), l.pending - {commit})
    case Drop(commit) =>
      commit in l.pending && l' == l.(pending := l.pending - {commit})
  }

  ghost predicate IsLateRun(net: Network, run: seq<LateWorld>) {
    && run != [] && Init(run[0].base) && run[0].pending == {}
    && forall i :: 0 <= i < |run| - 1 ==> LateLinked(net, run[i], run[i + 1])
  }

  ghost predicate LateLinked(net: Network, l: LateWorld, l': LateWorld) {
    exists step :: LateNext(net, l, step, l')
  }

  ghost predicate LateReachable(net: Network, l: LateWorld) {
    exists run :: IsLateRun(net, run) && run[|run| - 1] == l
  }

  // ---- Invariants ----

  function NextAfter(m: Monitor, cursor: Option<U64>): int {
    if cursor.Some? then cursor.value + 1 else m.start
  }

  /** The stored cursor is the poll's, or one block ahead of it because a pending commit has landed. */
  ghost predicate LateAgrees(stored: Monitor, loaded: Monitor, progress: Option<U64>, held: bool) {
    && Definition(stored) == Definition(loaded)
    && (stored.cursor == progress || (!held && IsAhead(stored, loaded, progress)))
  }

  predicate IsAhead(stored: Monitor, loaded: Monitor, progress: Option<U64>) {
    stored.cursor.Some? && stored.cursor.value == NextAfter(loaded, progress)
  }

  ghost predicate LateInStep(store: Store, pending: set<BlockCommit>, p: Poll)
    requires |p.progress| == |p.active|
  {
    forall j :: 0 <= j < |p.active| && p.active[j].id in store.monitors ==>
      LateAgrees(store.monitors[p.active[j].id], p.active[j], p.progress[j], Held(pending, p.active[j].id))
  }

  ghost predicate LatePollOk(net: Network, l: LateWorld, chain: nat, p: Poll) {
    && PollShape(net, chain, p)
    && LateInStep(l.base.store, l.pending, p)
    && forall m :: m in p.active ==> m.id < l.base.nextId
  }

  /** Whenever it lands, the commit leaves the monitor's table exact: its block is the next one, or the
      cursor is there already and the block has nothing for the monitor. */
  ghost predicate Lands(net: Network, m: Monitor, table: seq<Row>, rows: seq<Row>, block: U64) {
    && ExactlyOnce(net, Advance(m, block), table + rows)
    && (block == NextAfter(m, m.cursor) || m.cursor == Some(block))
  }

  ghost predicate LandsFor(net: Network, store: Store, commit: BlockCommit, id: nat) {
    && id in store.monitors && id in store.tables && store.monitors[id].chain == commit.chain
    && Lands(net, store.monitors[id], store.tables[id], RowsOf(Select(commit.results, id)), commit.block)
  }

  ghost predicate PendingOk(net: Network, store: Store, commit: BlockCommit) {
    forall id :: id in Ids(commit.monitors) ==> LandsFor(net, store, commit, id)
  }

  /** Locks exclude each other. */
  ghost predicate Apart(a: BlockCommit, b: BlockCommit) {
    a != b ==> Ids(a.monitors) !! Ids(b.monitors)
  }

  ghost predicate LateOk(net: Network, l: LateWorld) {
    && StoreOk(net, l.base.store, l.base.nextId)
    && (forall chain :: chain in l.base.polls ==> LatePollOk(net, l, chain, l.base.polls[chain]))
    && (forall commit :: commit in l.pending ==> PendingOk(net, l.base.store, commit))
    && (forall a, b :: a in l.pending && b in l.pending ==> Apart(a, b))
  }

  // ---- One commit ----

  lemma {:induction false} ScanEndsWith(net: Network, def: Monitor, block: U64)
    requires def.start <= block
    ensures ScanRange(net, def, def.start, block + 1) ==
            ScanRange(net, def, def.start, block) + RowsOf(ScanBlock(net.d, net.source(def.chain), def, block))
  {
  }

  lemma NewRowsAreNew(table: seq<Row>, rows: seq<Row>, k: nat)
    requires UniqueRows(table + rows) && k < |rows|
    ensures rows[k] !in table
  {
    forall i | 0 <= i < |table|
      ensures table[i] != rows[k]
    {
      assert (table + rows)[i] == table[i] && (table + rows)[|table| + k] == rows[k];
    }
  }

  lemma NothingNew(table: seq<Row>, rows: seq<Row>)
    requires UniqueRows(table + rows) && multiset(rows) <= multiset(table)
    ensures rows == []
  {
    forall row
      ensures row !in multiset(rows)
    {
      if k :| 0 <= k < |rows| && rows[k] == row {
        NewRowsAreNew(table, rows, k);
      }
    }
    assert multiset(rows) == multiset{};
    assert |rows| == |multiset(rows)|;
  }

  /** A commit of a block that is stored already is acceptable only if it has nothing for the monitor. */
  lemma StoredAlready(net: Network, m: Monitor, table: seq<Row>, rows: seq<Row>, block: U64)
    requires ExactlyOnce(net, m, table) && m.cursor == Some(block)
    requires multiset(rows) == multiset(RowsOf(ScanBlock(net.d, net.source(m.chain), Definition(m), block)))
    requires UniqueRows(table + rows)
    ensures rows == []
  {
    ScanEndsWith(net, Definition(m), block);
    assert multiset(rows) <= multiset(ScanRange(net, Definition(m), m.start, block + 1));
    NothingNew(table, rows);
  }

  lemma LandsAgain(net: Network, m: Monitor, table: seq<Row>, block: U64)
    requires ExactlyOnce(net, m, table) && m.cursor == Some(block)
    ensures Advance(m, block) == m && Lands(net, m, table, [], block)
  {
    var empty: seq<Row> := [];
    assert Advance(m, block) == m;
    assert table + empty == table;
  }

  /** What an acceptable commit does to one of its monitors, whether or not an earlier commit of the same
      block has landed meanwhile. */
  lemma CommitLands(net: Network, chain: nat, p: Poll, j: nat, m: Monitor, table: seq<Row>, held: bool)
    requires PollShape(net, chain, p) && CanCommit(p)
    requires j in p.plans[p.done].indices && j < |p.active| && m.id == p.active[j].id
    requires LateAgrees(m, p.active[j], p.progress[j], held) && WellDefined(m) && ExactlyOnce(net, m, table)
    requires p.plans[p.done].block <= I64_MAX
    requires UniqueRows(table + RowsOf(Select(p.ready[p.done], m.id)))
    ensures Lands(net, m, table, RowsOf(Select(p.ready[p.done], m.id)), p.plans[p.done].block)
  {
    var block := p.plans[p.done].block;
    assert p.active[j] in p.active;
    NextPlanFollows(p.active, p.head, p.batch, p.plans, p.done, j);
    assert block == NextAfter(p.active[j], p.progress[j]) && m.start == p.active[j].start && m.chain == chain;
    if m.cursor == p.progress[j] {
      CommitExtends(net, chain, p, j, m, table);
    } else {
      PreparedScan(net, chain, p, j);
      StoredAlready(net, m, table, RowsOf(Select(p.ready[p.done], m.id)), block);
      LandsAgain(net, m, table, block);
    }
  }

  lemma AcceptableLandsFor(net: Network, l: LateWorld, chain: nat, id: nat)
    requires LateOk(net, l) && chain in l.base.polls && CanCommit(l.base.polls[chain])
    requires Acceptable(l.base.store, CommitOf(chain, l.base.polls[chain]))
    requires id in Ids(CommitOf(chain, l.base.polls[chain]).monitors)
    ensures LandsFor(net, l.base.store, CommitOf(chain, l.base.polls[chain]), id)
  {
    var p, store := l.base.polls[chain], l.base.store;
    assert LatePollOk(net, l, chain, p);
    assert id in Locked(store, CommitOf(chain, p));
    assert MonitorOk(net, store, id, l.base.nextId);
    var j := CommitIdsAreLoaded(chain, p, id);
    CommitLands(net, chain, p, j, store.monitors[id], store.tables[id], Held(l.pending, id));
  }

  lemma AcceptableLands(net: Network, l: LateWorld, chain: nat)
    requires LateOk(net, l) && chain in l.base.polls && CanCommit(l.base.polls[chain])
    requires Acceptable(l.base.store, CommitOf(chain, l.base.polls[chain]))
    ensures PendingOk(net, l.base.store, CommitOf(chain, l.base.polls[chain]))
  {
    forall id | id in Ids(CommitOf(chain, l.base.polls[chain]).monitors)
      ensures LandsFor(net, l.base.store, CommitOf(chain, l.base.polls[chain]), id)
    {
      AcceptableLandsFor(net, l, chain, id);
    }
  }

  lemma LandingKeepsStore(net: Network, store: Store, nextId: nat, commit: BlockCommit)
    requires StoreOk(net, store, nextId) && PendingOk(net, store, commit)
    ensures StoreOk(net, Committed(store, commit), nextId)
  {
    var next := Committed(store, commit);
    forall id | id in next.monitors
      ensures MonitorOk(net, next, id, nextId)
    {
      assert MonitorOk(net, store, id, nextId);
      if id in Ids(commit.monitors) {
        assert LandsFor(net, store, commit, id);
      }
    }
  }

  /** Pending commits see no change of the rows they lock. */
  lemma PendingKept(net: Network, store: Store, after: Store, commit: BlockCommit)
    requires PendingOk(net, store, commit)
    requires forall id :: id in Ids(commit.monitors) ==> Untouched(store, after, id)
    ensures PendingOk(net, after, commit)
  {
    forall id | id in Ids(commit.monitors)
      ensures LandsFor(net, after, commit, id)
    {
      assert LandsFor(net, store, commit, id) && Untouched(store, after, id);
    }
  }

  predicate Untouched(store: Store, after: Store, id: nat) {
    && (id in store.monitors ==> id in after.monitors && after.monitors[id] == store.monitors[id])
    && (id in store.tables ==> id in after.tables && after.tables[id] == store.tables[id])
  }

  lemma CommitLeavesHeld(net: Network, l: LateWorld, commit: BlockCommit, after: Store)
    requires LateOk(net, l) && NoneHeld(l.pending, Ids(commit.monitors)) && after == Committed(l.base.store, commit)
    ensures forall other :: other in l.pending ==> PendingOk(net, after, other)
  {
    forall other | other in l.pending
      ensures PendingOk(net, after, other)
    {
      forall id | id in Ids(other.monitors)
        ensures Untouched(l.base.store, after, id)
      {
        assert Held(l.pending, id);
      }
      PendingKept(net, l.base.store, after, other);
    }
  }

  // ---- Polls ----

  lemma LatePollKept(net: Network, l: LateWorld, l': LateWorld, chain: nat, p: Poll)
    requires LatePollOk(net, l, chain, p) && l.base.nextId <= l'.base.nextId
    requires LateInStep(l'.base.store, l'.pending, p)
    ensures LatePollOk(net, l', chain, p)
  {
  }

  /** A poll whose monitors' rows and locks are as they were. */
  lemma SameRowsInStep(store: Store, pending: set<BlockCommit>, after: Store, pending': set<BlockCommit>, p: Poll)
    requires |p.progress| == |p.active| && LateInStep(store, pending, p)
    requires forall m :: m in p.active && m.id in after.monitors ==>
               m.id in store.monitors && (SameButEnabled(store.monitors[m.id], after.monitors[m.id])) &&
               (Held(pending', m.id) ==> Held(pending, m.id))
    ensures LateInStep(after, pending', p)
  {
    forall j | 0 <= j < |p.active| && p.active[j].id in after.monitors
      ensures LateAgrees(after.monitors[p.active[j].id], p.active[j], p.progress[j], Held(pending', p.active[j].id))
    {
      var m := p.active[j];
      assert m in p.active;
      assert LateAgrees(store.monitors[m.id], m, p.progress[j], Held(pending, m.id));
    }
  }

  predicate SameButEnabled(a: Monitor, b: Monitor) {
    Definition(a) == Definition(b) && a.cursor == b.cursor
  }

  lemma StoredChain(net: Network, store: Store, pending: set<BlockCommit>, chain: nat, p: Poll, j: nat)
    requires PollShape(net, chain, p) && LateInStep(store, pending, p) && j < |p.active| && p.active[j].id in store.monitors
    ensures store.monitors[p.active[j].id].chain == chain
  {
    assert p.active[j] in p.active;
    assert LateAgrees(store.monitors[p.active[j].id], p.active[j], p.progress[j], Held(pending, p.active[j].id));
    assert Definition(store.monitors[p.active[j].id]).chain == Definition(p.active[j]).chain;
  }

  /** A monitor of another chain's poll is not listed in a commit that fits the store. */
  lemma OtherChain(net: Network, store: Store, commit: BlockCommit, chain: nat, p: Poll, pending: set<BlockCommit>, j: nat)
    requires PendingOk(net, store, commit) && PollShape(net, chain, p) && chain != commit.chain
    requires LateInStep(store, pending, p) && j < |p.active|
    ensures p.active[j].id !in Ids(commit.monitors)
  {
    var id := p.active[j].id;
    assert id in Ids(commit.monitors) ==> LandsFor(net, store, commit, id);
    if id in store.monitors {
      StoredChain(net, store, pending, chain, p, j);
    }
  }

  lemma OtherPollKept(net: Network, store: Store, pending: set<BlockCommit>, commit: BlockCommit, chain: nat, p: Poll,
                      after: Store, pending': set<BlockCommit>)
    requires PendingOk(net, store, commit) && PollShape(net, chain, p) && chain != commit.chain && LateInStep(store, pending, p)
    requires after == Committed(store, commit) || after == store
    requires pending' <= pending + {commit}
    ensures LateInStep(after, pending', p)
  {
    forall m | m in p.active && m.id in after.monitors
      ensures m.id in store.monitors && SameButEnabled(store.monitors[m.id], after.monitors[m.id])
      ensures Held(pending', m.id) ==> Held(pending, m.id)
    {
      var j :| 0 <= j < |p.active| && p.active[j] == m;
      OtherChain(net, store, commit, chain, p, pending, j);
    }
    SameRowsInStep(store, pending, after, pending', p);
  }

  /** The poll's own commit brings it back in step. */
  lemma OwnCommitInStep(store: Store, pending: set<BlockCommit>, chain: nat, p: Poll)
    requires |p.progress| == |p.active| && DistinctIds(p.active) && CanCommit(p) && LateInStep(store, pending, p)
    ensures LateInStep(Committed(store, CommitOf(chain, p)), pending, Advanced(p))
  {
    forall j | 0 <= j < |p.active| && p.active[j].id in store.monitors
      ensures LateAgrees(Committed(store, CommitOf(chain, p)).monitors[p.active[j].id], p.active[j], Advanced(p).progress[j],
                         Held(pending, p.active[j].id))
    {
      CommitIds(chain, p, j);
      assert LateAgrees(store.monitors[p.active[j].id], p.active[j], p.progress[j], Held(pending, p.active[j].id));
    }
  }

  /** A landing commit puts its monitors at most one block ahead of a poll of the same chain. */
  lemma LandingInStep(net: Network, l: LateWorld, commit: BlockCommit, p: Poll)
    requires LateOk(net, l) && commit in l.pending
    requires |p.progress| == |p.active| && LateInStep(l.base.store, l.pending, p)
    ensures LateInStep(Committed(l.base.store, commit), l.pending - {commit}, p)
  {
    var store := l.base.store;
    forall j | 0 <= j < |p.active| && p.active[j].id in store.monitors
      ensures LateAgrees(Committed(store, commit).monitors[p.active[j].id], p.active[j], p.progress[j],
                         Held(l.pending - {commit}, p.active[j].id))
    {
      var id := p.active[j].id;
      assert LateAgrees(store.monitors[id], p.active[j], p.progress[j], Held(l.pending, id));
      if id in Ids(commit.monitors) {
        assert Held(l.pending, id) && LandsFor(net, store, commit, id);
        NoLongerHeld(net, l, commit, id);
      }
    }
  }

  lemma NoLongerHeld(net: Network, l: LateWorld, commit: BlockCommit, id: nat)
    requires LateOk(net, l) && commit in l.pending && id in Ids(commit.monitors)
    ensures !Held(l.pending - {commit}, id)
  {
    forall other | other in l.pending - {commit}
      ensures id !in Ids(other.monitors)
    {
      assert Apart(other, commit);
    }
  }

  // ---- Every step ----

  lemma LandKeeps(net: Network, l: LateWorld, commit: BlockCommit, l': LateWorld)
    requires LateOk(net, l) && LateNext(net, l, Land(commit), l')
    ensures LateOk(net, l')
  {
    LandingKeepsStore(net, l.base.store, l.base.nextId, commit);
    forall chain | chain in l'.base.polls
      ensures LatePollOk(net, l', chain, l'.base.polls[chain])
    {
      assert LatePollOk(net, l, chain, l.base.polls[chain]);
      LandingInStep(net, l, commit, l.base.polls[chain]);
      LatePollKept(net, l, l', chain, l.base.polls[chain]);
    }
    forall other | other in l'.pending
      ensures PendingOk(net, l'.base.store, other)
    {
      assert Apart(other, commit);
      PendingKept(net, l.base.store, l'.base.store, other);
    }
  }

  lemma DropKeeps(net: Network, l: LateWorld, commit: BlockCommit, l': LateWorld)
    requires LateOk(net, l) && LateNext(net, l, Drop(commit), l')
    ensures LateOk(net, l')
  {
    forall chain | chain in l'.base.polls
      ensures LatePollOk(net, l', chain, l'.base.polls[chain])
    {
      assert LatePollOk(net, l, chain, l.base.polls[chain]);
      SameRowsInStep(l.base.store, l.pending, l.base.store, l'.pending, l.base.polls[chain]);
      LatePollKept(net, l, l', chain, l.base.polls[chain]);
    }
  }

  lemma NewIsApart(pending: set<BlockCommit>, commit: BlockCommit, other: BlockCommit)
    requires NoneHeld(pending, Ids(commit.monitors)) && other in pending
    ensures Apart(other, commit) && Apart(commit, other)
  {
    forall id | id in Ids(commit.monitors)
      ensures id !in Ids(other.monitors)
    {
      assert !Held(pending, id);
    }
  }

  lemma OneMorePending(net: Network, store: Store, pending: set<BlockCommit>, commit: BlockCommit)
    requires NoneHeld(pending, Ids(commit.monitors)) && PendingOk(net, store, commit)
    requires (forall c :: c in pending ==> PendingOk(net, store, c)) && (forall a, b :: a in pending && b in pending ==> Apart(a, b))
    ensures forall c :: c in pending + {commit} ==> PendingOk(net, store, c)
    ensures forall a, b :: a in pending + {commit} && b in pending + {commit} ==> Apart(a, b)
  {
    forall other | other in pending
      ensures Apart(other, commit) && Apart(commit, other)
    {
      NewIsApart(pending, commit, other);
    }
  }

  lemma PostponeKeeps(net: Network, l: LateWorld, chain: nat, l': LateWorld)
    requires LateOk(net, l) && LateNext(net, l, Postpone(chain), l')
    ensures LateOk(net, l')
  {
    var commit := CommitOf(chain, l.base.polls[chain]);
    AcceptableLands(net, l, chain);
    forall other | other in l'.base.polls
      ensures LatePollOk(net, l', other, l'.base.polls[other])
    {
      assert LatePollOk(net, l, other, l.base.polls[other]);
      OtherPollKept(net, l.base.store, l.pending, commit, other, l.base.polls[other], l.base.store, l'.pending);
      LatePollKept(net, l, l', other, l.base.polls[other]);
    }
    OneMorePending(net, l.base.store, l.pending, commit);
  }

  lemma CommitKeeps(net: Network, l: LateWorld, step: Step, l': LateWorld)
    requires LateOk(net, l) && step.CommitNext? && !step.reply.Refused? && LateNext(net, l, Timely(step), l')
    ensures LateOk(net, l')
  {
    var p, store := l.base.polls[step.chain], l.base.store;
    var commit := CommitOf(step.chain, p);
    AcceptableLands(net, l, step.chain);
    LandingKeepsStore(net, store, l.base.nextId, commit);
    CommitLeavesHeld(net, l, commit, l'.base.store);
    forall chain | chain in l'.base.polls
      ensures LatePollOk(net, l', chain, l'.base.polls[chain])
    {
      assert LatePollOk(net, l, chain, l.base.polls[chain]);
      if chain == step.chain {
        AdvancedKeepsShape(net, chain, p);
        OwnCommitInStep(store, l.pending, chain, p);
      } else {
        OtherPollKept(net, store, l.pending, commit, chain, l.base.polls[chain], l'.base.store, l'.pending);
        LatePollKept(net, l, l', chain, l.base.polls[chain]);
      }
    }
  }

  lemma MonitorStepKeepsRows(net: Network, l: LateWorld, step: Step, l': LateWorld)
    requires LateOk(net, l) && (step.Create? || step.SetEnabled? || step.Delete?) && LateNext(net, l, Timely(step), l')
    ensures forall commit :: commit in l.pending ==> PendingOk(net, l'.base.store, commit)
  {
    forall commit | commit in l.pending
      ensures PendingOk(net, l'.base.store, commit)
    {
      forall id | id in Ids(commit.monitors)
        ensures Untouched(l.base.store, l'.base.store, id)
      {
        assert Held(l.pending, id) && LandsFor(net, l.base.store, commit, id);
        assert MonitorOk(net, l.base.store, id, l.base.nextId);
      }
      PendingKept(net, l.base.store, l'.base.store, commit);
    }
  }

  lemma MonitorStepKeepsLateStep(net: Network, l: LateWorld, step: Step, l': LateWorld, p: Poll)
    requires (step.Create? || step.SetEnabled? || step.Delete?) && LateNext(net, l, Timely(step), l')
    requires |p.progress| == |p.active| && LateInStep(l.base.store, l.pending, p) && forall m :: m in p.active ==> m.id < l.base.nextId
    ensures LateInStep(l'.base.store, l'.pending, p)
  {
    SameRowsInStep(l.base.store, l.pending, l'.base.store, l'.pending, p);
  }

  lemma MonitorStepKeeps(net: Network, l: LateWorld, step: Step, l': LateWorld)
    requires LateOk(net, l) && (step.Create? || step.SetEnabled? || step.Delete?) && LateNext(net, l, Timely(step), l')
    ensures LateOk(net, l')
  {
    match step {
      case Create(m) => CreateKeepsStore(net, l.base.store, l.base.nextId, m);
      case SetEnabled(id, enabled) => SetEnabledKeepsStore(net, l.base.store, l.base.nextId, id, enabled);
      case Delete(id) => DeleteKeepsStore(net, l.base.store, l.base.nextId, id);
      case _ =>
    }
    MonitorStepKeepsRows(net, l, step, l');
    forall chain | chain in l'.base.polls
      ensures LatePollOk(net, l', chain, l'.base.polls[chain])
    {
      assert LatePollOk(net, l, chain, l.base.polls[chain]);
      MonitorStepKeepsLateStep(net, l, step, l', l.base.polls[chain]);
      LatePollKept(net, l, l', chain, l.base.polls[chain]);
    }
  }

  /** Steps that change polls only. */
  lemma PollStepKeeps(net: Network, l: LateWorld, step: Step, l': LateWorld)
    requires LateOk(net, l) && LateNext(net, l, Timely(step), l')
    requires step.StartPoll? || step.FinishPreparing? || step.StopPoll? || (step.CommitNext? && step.reply.Refused?)
    ensures LateOk(net, l')
  {
    forall chain | chain in l'.base.polls
      ensures LatePollOk(net, l', chain, l'.base.polls[chain])
    {
      if step.StartPoll? && chain == step.chain {
        StartShape(net, l.base, chain, l'.base.polls[chain]);
      } else {
        assert LatePollOk(net, l, chain, l.base.polls[chain]);
        if step.FinishPreparing? && chain == step.chain {
          PreparedKeepsShape(net, chain, l.base.polls[chain], step.position, step.results);
        }
      }
    }
  }

  lemma LateStepKeeps(net: Network, l: LateWorld, step: LateStep, l': LateWorld)
    requires LateOk(net, l) && LateNext(net, l, step, l')
    ensures LateOk(net, l')
  {
    match step
    case Postpone(chain) => PostponeKeeps(net, l, chain, l');
    case Land(commit) => LandKeeps(net, l, commit, l');
    case Drop(commit) => DropKeeps(net, l, commit, l');
    case Timely(s) =>
      if s.Create? || s.SetEnabled? || s.Delete? {
        MonitorStepKeeps(net, l, s, l');
      } else if s.CommitNext? && !s.reply.Refused? {
        CommitKeeps(net, l, s, l');
      } else {
        PollStepKeeps(net, l, s, l');
      }
  }

  lemma {:induction false} LateRunKeeps(net: Network, run: seq<LateWorld>)
    requires IsLateRun(net, run)
    ensures LateOk(net, run[|run| - 1])
    decreases |run|
  {
    if |run| == 1 {
    } else {
      var before := run[..|run| - 1];
      assert IsLateRun(net, before);
      LateRunKeeps(net, before);
      assert LateLinked(net, run[|run| - 2], run[|run| - 1]);
      var step :| LateNext(net, run[|run| - 2], step, run[|run| - 1]);
      LateStepKeeps(net, run[|run| - 2], step, run[|run| - 1]);
    }
  }

  /** Exactly once holds in every run even when the database decides commits late. */
  lemma ExactlyOnceWhenLate(net: Network, l: LateWorld, id: nat)
    requires LateReachable(net, l) && id in l.base.store.monitors
    ensures id in l.base.store.tables && WellDefined(l.base.store.monitors[id])
    ensures ExactlyOnce(net, l.base.store.monitors[id], l.base.store.tables[id])
  {
    var run :| IsLateRun(net, run) && run[|run| - 1] == l;
    LateRunKeeps(net, run);
    assert MonitorOk(net, l.base.store, id, l.base.nextId);
  }

  /** Every world that is reachable when no commit is late is reachable here. */
  lemma {:induction false} TimelyReachable(net: Network, run: seq<World>)
    requires IsRun(net, run)
    ensures LateReachable(net, LateWorld(run[|run| - 1], {}))
    decreases |run|
  {
    var last := LateWorld(run[|run| - 1], {});
    if |run| == 1 {
      assert IsLateRun(net, [last]) && [last][|[last]| - 1] == last;
    } else {
      var before := run[..|run| - 1];
      assert IsRun(net, before);
      TimelyReachable(net, before);
      assert Linked(net, run[|run| - 2], run[|run| - 1]);
      var step :| Next(net, run[|run| - 2], step, run[|run| - 1]);
      NothingHeld(run[|run| - 2], step, net, run[|run| - 1]);
      LateReachableStep(net, LateWorld(run[|run| - 2], {}), Timely(step), last);
    }
  }

  lemma NothingHeld(w: World, step: Step, net: Network, w': World)
    requires Next(net, w, step, w')
    ensures Unblocked(w, {}, step)
  {
  }

  lemma LateReachableStep(net: Network, l: LateWorld, step: LateStep, l': LateWorld)
    requires LateReachable(net, l) && LateNext(net, l, step, l')
    ensures LateReachable(net, l')
  {
    var run :| IsLateRun(net, run) && run[|run| - 1] == l;
    var longer := run + [l'];
    forall i | 0 <= i < |longer| - 1
      ensures LateLinked(net, longer[i], longer[i + 1])
    {
      if i < |run| - 1 {
        assert LateLinked(net, run[i], run[i + 1]);
      } else {
        assert longer[i] == l && longer[i + 1] == l';
      }
    }
    assert IsLateRun(net, longer) && longer[|longer| - 1] == l';
  }
}
