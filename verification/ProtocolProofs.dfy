/** What every run of the protocol keeps: each monitor's table holds exactly what a direct scan of its
    committed range yields, whatever was interleaved. */
module ProtocolProofs {
  import opened Domain
  import opened Results
  import opened Abi
  import opened Indexer
  import opened BlockDecoder
  import opened Preparer
  import opened Scheduler
  import opened Storage
  import opened Protocol

  // ---- The direct scan ----

  /** The rows of blocks `from` up to but excluding `upto`, scanned for one monitor alone. */
  function ScanRange(net: Network, m: Monitor, from: int, upto: int): seq<Row>
    requires 0 <= from && upto <= U64_MAX + 1
    decreases upto - from
  {
    if from >= upto then []
    else ScanRange(net, m, from, upto - 1) + RowsOf(ScanBlock(net.d, net.source(m.chain), m, upto - 1))
  }

  /** Cursor and table of one monitor agree with the chain. */
  ghost predicate ExactlyOnce(net: Network, m: Monitor, table: seq<Row>) {
    && UniqueRows(table)
    && match m.cursor
       case None => table == [] && !m.completed
       case Some(c) =>
         && m.start <= c <= I64_MAX
         && (m.end.Some? ==> c <= m.end.value)
         && (m.completed <==> m.end == Some(c))
         && multiset(table) == multiset(ScanRange(net, Definition(m), m.start, c + 1))
  }

  // ---- Invariants ----

  ghost predicate StoreOk(net: Network, store: Store, nextId: nat) {
    && store.tables.Keys == store.monitors.Keys
    && forall id :: id in store.monitors ==> MonitorOk(net, store, id, nextId)
  }

  ghost predicate MonitorOk(net: Network, store: Store, id: nat, nextId: nat)
    requires id in store.monitors && id in store.tables
  {
    && store.monitors[id].id == id < nextId
    && WellDefined(store.monitors[id])
    && ExactlyOnce(net, store.monitors[id], store.tables[id])
  }

  ghost predicate SoundCursor(m: Monitor) {
    && WellDefined(m)
    && (m.cursor.Some? ==> m.start <= m.cursor.value <= I64_MAX && (m.end.Some? ==> m.cursor.value <= m.end.value))
  }

  /** The cursor of the `j`-th loaded monitor once the first `done` plans are committed. */
  function ProgressAt(active: seq<Monitor>, plans: seq<BlockPlan>, done: nat, j: nat): Option<U64>
    requires done <= |plans| && j < |active|
  {
    if done == 0 then active[j].cursor
    else if j in plans[done - 1].indices then Some(plans[done - 1].block)
    else ProgressAt(active, plans, done - 1, j)
  }

  ghost predicate Agrees(stored: Monitor, loaded: Monitor, progress: Option<U64>) {
    Definition(stored) == Definition(loaded) && stored.cursor == progress
  }

  ghost predicate SoundActive(chain: nat, active: seq<Monitor>) {
    DistinctIds(active) && forall m :: m in active ==> m.chain == chain && m.Active() && SoundCursor(m)
  }

  ghost predicate SoundProgress(active: seq<Monitor>, plans: seq<BlockPlan>, done: nat, progress: seq<Option<U64>>)
    requires done <= |plans|
  {
    && |progress| == |active|
    && forall j :: 0 <= j < |active| ==> progress[j] == ProgressAt(active, plans, done, j)
  }

  ghost predicate SoundReady(net: Network, chain: nat, active: seq<Monitor>, plans: seq<BlockPlan>, ready: map<nat, seq<Decoded>>) {
    forall k :: k in ready ==> k < |plans| && PreparedFor(net.d, net.source(chain), active, plans[k], ready[k])
  }

  /** The part of a poll that no store change touches. */
  ghost predicate PollShape(net: Network, chain: nat, p: Poll) {
    && SoundActive(chain, p.active)
    && p.batch >= 1 && IsPlan(p.active, p.head, p.batch, p.plans)
    && p.done <= |p.plans| && SoundProgress(p.active, p.plans, p.done, p.progress)
    && SoundReady(net, chain, p.active, p.plans, p.ready)
  }

  /** Every loaded monitor still stored has the cursor the poll thinks it has. */
  ghost predicate InStep(store: Store, p: Poll)
    requires |p.progress| == |p.active|
  {
    forall j :: 0 <= j < |p.active| && p.active[j].id in store.monitors ==>
      Agrees(store.monitors[p.active[j].id], p.active[j], p.progress[j])
  }

  ghost predicate PollOk(net: Network, w: World, chain: nat, p: Poll) {
    && PollShape(net, chain, p)
    && InStep(w.store, p)
    && p.number < w.nextPoll
    && forall m :: m in p.active ==> m.id < w.nextId
  }

  ghost predicate PollsOk(net: Network, w: World) {
    && (forall chain :: chain in w.polls ==> PollOk(net, w, chain, w.polls[chain]))
    && forall a, b :: a in w.polls && b in w.polls && a != b ==> w.polls[a].number != w.polls[b].number
  }

  // ---- Plans ----

  lemma PlannedNeedsBlock(active: seq<Monitor>, head: U64, batch: U64, plans: seq<BlockPlan>, k: nat, j: nat)
    requires batch >= 1 && IsPlan(active, head, batch, plans) && k < |plans|
    requires forall m :: m in active ==> SoundCursor(m) && m.Active()
    ensures j in plans[k].indices ==> j < |active| && active[j].NeedsBlock(plans[k].block)
    ensures IsPlanned(active, j, plans[k].block, plans[k].indices) <==> j in plans[k].indices
  {
    assert PlanOf(active, head, batch, plans[k]);
    BinarySearchFinds(plans[k].indices, j);
    if j in plans[k].indices {
      assert active[j] in active;
      assert InShare(active[j], head, batch, plans[k].block);
    }
  }

  lemma {:induction false} BlocksSpread(plans: seq<BlockPlan>, i: nat, k: nat)
    requires AscendingPlans(plans) && i <= k < |plans|
    ensures plans[k].block - plans[i].block >= k - i
  {
    if i == k {
    } else {
      BlocksSpread(plans, i, k - 1);
    }
  }

  lemma AdjacentPlans(plans: seq<BlockPlan>, i: nat, k: nat)
    requires AscendingPlans(plans) && i < |plans| && k < |plans|
    requires plans[i].block + 1 == plans[k].block
    ensures i + 1 == k
  {
    if i <= k {
      BlocksSpread(plans, i, k);
    }
  }

  /** The next plan naming a monitor is the very next block after its progress: no gap, no overlap, and
      no cursor near the width where the addition would saturate. */
  lemma {:induction false} NextPlanFollows(active: seq<Monitor>, head: U64, batch: U64, plans: seq<BlockPlan>, done: nat, j: nat)
    requires batch >= 1 && IsPlan(active, head, batch, plans) && done < |plans|
    requires j in plans[done].indices && j < |active| && SoundCursor(active[j])
    ensures var progress := ProgressAt(active, plans, done, j);
            plans[done].block == (if progress.Some? then progress.value + 1 else active[j].start)
  {
    var block := plans[done].block;
    var m := active[j];
    assert PlanOf(active, head, batch, plans[done]);
    if block == m.NextBlock() {
      NoEarlierPlan(active, head, batch, plans, done, j, done);
    } else {
      assert InShare(m, head, batch, block - 1);
      assert HasBlock(plans, block - 1);
      var k :| 0 <= k < |plans| && plans[k].block == block - 1;
      AdjacentPlans(plans, k, done);
      assert PlanOf(active, head, batch, plans[k]);
    }
  }

  lemma {:induction false} NoEarlierPlan(active: seq<Monitor>, head: U64, batch: U64, plans: seq<BlockPlan>, first: nat, j: nat, done: nat)
    requires batch >= 1 && IsPlan(active, head, batch, plans) && done <= first < |plans| && j < |active|
    requires plans[first].block == active[j].NextBlock()
    ensures ProgressAt(active, plans, done, j) == active[j].cursor
  {
    if done == 0 {
    } else {
      NoEarlierPlan(active, head, batch, plans, first, j, done - 1);
      assert PlanOf(active, head, batch, plans[done - 1]);
    }
  }

  // ---- Scanning ignores progress ----

  lemma HitOfDefinition(m: Monitor, decode: Decode)
    ensures Hit(m, decode) == Hit(Definition(m), decode)
  {
  }

  lemma ScanOfDefinition(d: Decoders, src: Source, m: Monitor, number: U64)
    ensures ScanBlock(d, src, m, number) == ScanBlock(d, src, Definition(m), number)
  {
    var def := Definition(m);
    assert KeyOf(def) == KeyOf(m) && LayoutOf(def) == LayoutOf(m);
    forall tx: Transaction
      ensures TxHits(d, m, number, src.succeeded)(tx) == TxHits(d, def, number, src.succeeded)(tx)
    {
      HitOfDefinition(m, CallDecode(d, number, tx));
      assert CallHits(d, m, number, tx) == CallHits(d, def, number, tx);
    }
    forall log: Log
      ensures LogHits(d, m, number)(log) == LogHits(d, def, number)(log)
    {
      HitOfDefinition(m, EventDecode(d, number, log));
    }
    GatherSame(src.transactions(number), TxHits(d, m, number, src.succeeded), TxHits(d, def, number, src.succeeded));
    GatherSame(src.logs(number), LogHits(d, m, number), LogHits(d, def, number));
  }

  // ---- One commit ----

  /** The prepared results of a planned monitor are the scan of its definition. */
  lemma PreparedScan(net: Network, chain: nat, p: Poll, j: nat)
    requires PollShape(net, chain, p) && CanCommit(p)
    requires j in p.plans[p.done].indices && j < |p.active|
    ensures multiset(RowsOf(Select(p.ready[p.done], p.active[j].id))) ==
            multiset(RowsOf(ScanBlock(net.d, net.source(chain), Definition(p.active[j]), p.plans[p.done].block)))
  {
    var block := p.plans[p.done].block;
    PlannedNeedsBlock(p.active, p.head, p.batch, p.plans, p.done, j);
    ScanOfDefinition(net.d, net.source(chain), p.active[j], block);
    RowsMultiset(Select(p.ready[p.done], p.active[j].id), ScanBlock(net.d, net.source(chain), Definition(p.active[j]), block));
  }

  lemma ScanGrows(net: Network, def: Monitor, table: seq<Row>, rows: seq<Row>, block: U64)
    requires def.start <= block
    requires multiset(table) == multiset(ScanRange(net, def, def.start, block))
    requires multiset(rows) == multiset(RowsOf(ScanBlock(net.d, net.source(def.chain), def, block)))
    ensures multiset(table + rows) == multiset(ScanRange(net, def, def.start, block + 1))
  {
  }

  /** One more block: a cursor right before `block`, and a table that scans up to it. */
  lemma ExtendScan(net: Network, m: Monitor, table: seq<Row>, rows: seq<Row>, block: U64)
    requires ExactlyOnce(net, m, table) && WellDefined(m)
    requires block == (if m.cursor.Some? then m.cursor.value + 1 else m.start) <= I64_MAX
    requires m.end.Some? ==> block <= m.end.value
    requires UniqueRows(table + rows)
    requires multiset(rows) == multiset(RowsOf(ScanBlock(net.d, net.source(m.chain), Definition(m), block)))
    ensures ExactlyOnce(net, Advance(m, block), table + rows)
  {
    assert Definition(Advance(m, block)) == Definition(m);
    if m.cursor.None? {
      assert multiset(table) == multiset(ScanRange(net, Definition(m), m.start, block));
    }
    ScanGrows(net, Definition(m), table, rows, block);
  }

  /** A committed block extends one planned monitor's table by exactly that block's scan. */
  lemma CommitExtends(net: Network, chain: nat, p: Poll, j: nat, m: Monitor, table: seq<Row>)
    requires PollShape(net, chain, p) && CanCommit(p)
    requires j in p.plans[p.done].indices && j < |p.active| && m.id == p.active[j].id
    requires Agrees(m, p.active[j], p.progress[j]) && WellDefined(m) && ExactlyOnce(net, m, table)
    requires p.plans[p.done].block <= I64_MAX
    requires UniqueRows(table + RowsOf(Select(p.ready[p.done], m.id)))
    ensures ExactlyOnce(net, Advance(m, p.plans[p.done].block), table + RowsOf(Select(p.ready[p.done], m.id)))
  {
    assert p.active[j] in p.active;
    assert m.start == p.active[j].start && m.end == p.active[j].end && m.chain == chain;
    PlannedNeedsBlock(p.active, p.head, p.batch, p.plans, p.done, j);
    NextPlanFollows(p.active, p.head, p.batch, p.plans, p.done, j);
    PreparedScan(net, chain, p, j);
    ExtendScan(net, m, table, RowsOf(Select(p.ready[p.done], m.id)), p.plans[p.done].block);
  }

  // ---- What a commit keeps ----

  lemma CommitIds(chain: nat, p: Poll, j: nat)
    requires CanCommit(p) && DistinctIds(p.active) && j < |p.active|
    ensures p.active[j].id in Ids(CommitOf(chain, p).monitors) <==> j in p.plans[p.done].indices
  {
    var indices := p.plans[p.done].indices;
    var monitors := CommitOf(chain, p).monitors;
    if j in indices {
      var k :| 0 <= k < |indices| && indices[k] == j;
      assert monitors[k].id == p.active[j].id;
    }
    if p.active[j].id in Ids(monitors) {
      var k :| 0 <= k < |monitors| && monitors[k].id == p.active[j].id;
      assert indices[k] in indices;
    }
  }

  lemma CommitIdsAreLoaded(chain: nat, p: Poll, id: nat) returns (j: nat)
    requires CanCommit(p) && id in Ids(CommitOf(chain, p).monitors)
    ensures j in p.plans[p.done].indices && j < |p.active| && p.active[j].id == id
  {
    var monitors := CommitOf(chain, p).monitors;
    var k :| 0 <= k < |monitors| && monitors[k].id == id;
    j := p.plans[p.done].indices[k];
  }

  lemma CommitKeepsStore(net: Network, w: World, chain: nat, p: Poll)
    requires StoreOk(net, w.store, w.nextId) && PollOk(net, w, chain, p) && CanCommit(p)
    requires Acceptable(w.store, CommitOf(chain, p))
    ensures StoreOk(net, Committed(w.store, CommitOf(chain, p)), w.nextId)
  {
    var commit := CommitOf(chain, p);
    var next := Committed(w.store, commit);
    forall id | id in next.monitors
      ensures MonitorOk(net, next, id, w.nextId)
    {
      assert MonitorOk(net, w.store, id, w.nextId);
      if id in Ids(commit.monitors) {
        var j := CommitIdsAreLoaded(chain, p, id);
        CommitExtends(net, chain, p, j, w.store.monitors[id], w.store.tables[id]);
      }
    }
  }

  lemma AdvancedProgress(p: Poll)
    requires p.done < |p.plans| && SoundProgress(p.active, p.plans, p.done, p.progress)
    ensures SoundProgress(p.active, p.plans, p.done + 1, Advanced(p).progress)
  {
  }

  lemma AdvancedKeepsShape(net: Network, chain: nat, p: Poll)
    requires PollShape(net, chain, p) && CanCommit(p)
    ensures PollShape(net, chain, Advanced(p))
  {
    AdvancedProgress(p);
  }

  lemma CommitKeepsInStep(store: Store, chain: nat, p: Poll)
    requires |p.progress| == |p.active| && DistinctIds(p.active) && InStep(store, p) && CanCommit(p)
    ensures InStep(Committed(store, CommitOf(chain, p)), Advanced(p))
  {
    forall j | 0 <= j < |p.active| && p.active[j].id in store.monitors
      ensures Agrees(Committed(store, CommitOf(chain, p)).monitors[p.active[j].id], p.active[j], Advanced(p).progress[j])
    {
      CommitIds(chain, p, j);
      assert Agrees(store.monitors[p.active[j].id], p.active[j], p.progress[j]);
    }
  }

  lemma CommitKeepsOther(store: Store, commit: BlockCommit, other: nat, q: Poll)
    requires |q.progress| == |q.active| && InStep(store, q) && other != commit.chain
    requires forall m :: m in q.active ==> m.chain == other
    requires Locked(store, commit).Keys == Ids(commit.monitors)
    ensures InStep(Committed(store, commit), q)
  {
  }

  // ---- Every step ----

  /** A poll stays sound when what it did not cause leaves its own cursors alone. */
  lemma PollKept(net: Network, w: World, w': World, chain: nat, p: Poll)
    requires PollOk(net, w, chain, p) && w.nextPoll <= w'.nextPoll && w.nextId <= w'.nextId
    requires InStep(w'.store, p)
    ensures PollOk(net, w', chain, p)
  {
  }

  lemma StartShape(net: Network, w: World, chain: nat, p: Poll)
    requires StoreOk(net, w.store, w.nextId) && Loaded(w.store, chain, p.active)
    requires p.batch >= 1 && IsPlan(p.active, p.head, p.batch, p.plans)
    requires p.done == 0 && p.ready == map[] && p.progress == Cursors(p.active)
    ensures PollShape(net, chain, p) && InStep(w.store, p)
    ensures forall m :: m in p.active ==> m.id < w.nextId
  {
  }

  lemma StartKeepsPolls(net: Network, w: World, step: Step, w': World)
    requires StoreOk(net, w.store, w.nextId) && PollsOk(net, w)
    requires step.StartPoll? && Next(net, w, step, w')
    ensures PollsOk(net, w')
  {
    StartShape(net, w, step.chain, w'.polls[step.chain]);
    forall chain | chain in w'.polls && chain != step.chain
      ensures PollOk(net, w', chain, w'.polls[chain])
    {
      PollKept(net, w, w', chain, w.polls[chain]);
    }
  }

  lemma CommitKeepsPolls(net: Network, w: World, step: Step, w': World)
    requires PollsOk(net, w)
    requires step.CommitNext? && !step.reply.Refused? && Next(net, w, step, w')
    ensures PollsOk(net, w')
  {
    var p := w.polls[step.chain];
    assert PollOk(net, w, step.chain, p);
    if step.reply.Accepted? {
      AdvancedKeepsShape(net, step.chain, p);
      CommitKeepsInStep(w.store, step.chain, p);
    }
    forall chain | chain in w'.polls && chain != step.chain
      ensures PollOk(net, w', chain, w'.polls[chain])
    {
      var q := w.polls[chain];
      assert PollOk(net, w, chain, q);
      CommitKeepsOther(w.store, CommitOf(step.chain, p), chain, q);
      PollKept(net, w, w', chain, q);
    }
  }

  lemma CommitKeepsWorld(net: Network, w: World, step: Step, w': World)
    requires StoreOk(net, w.store, w.nextId) && PollsOk(net, w)
    requires step.CommitNext? && !step.reply.Refused? && Next(net, w, step, w')
    ensures StoreOk(net, w'.store, w'.nextId) && PollsOk(net, w')
  {
    CommitKeepsStore(net, w, step.chain, w.polls[step.chain]);
    CommitKeepsPolls(net, w, step, w');
  }

  lemma CreateKeepsStore(net: Network, store: Store, nextId: nat, m: Monitor)
    requires StoreOk(net, store, nextId)
    requires m.id == nextId && m == Definition(m) && WellDefined(m)
    ensures StoreOk(net, Store(store.monitors[m.id := m], store.tables[m.id := []]), nextId + 1)
  {
  }

  lemma SetEnabledKeepsOne(net: Network, m: Monitor, table: seq<Row>, enabled: bool)
    requires ExactlyOnce(net, m, table)
    ensures ExactlyOnce(net, m.(enabled := enabled), table)
  {
  }

  lemma SetEnabledKeepsStore(net: Network, store: Store, nextId: nat, id: nat, enabled: bool)
    requires StoreOk(net, store, nextId) && id in store.monitors
    ensures StoreOk(net, store.(monitors := store.monitors[id := store.monitors[id].(enabled := enabled)]), nextId)
  {
    var next := store.(monitors := store.monitors[id := store.monitors[id].(enabled := enabled)]);
    forall other | other in next.monitors
      ensures MonitorOk(net, next, other, nextId)
    {
      assert MonitorOk(net, store, other, nextId);
      if other == id {
        SetEnabledKeepsOne(net, store.monitors[id], store.tables[id], enabled);
      }
    }
  }

  lemma DeleteKeepsStore(net: Network, store: Store, nextId: nat, id: nat)
    requires StoreOk(net, store, nextId) && id in store.monitors
    ensures StoreOk(net, Store(store.monitors - {id}, store.tables - {id}), nextId)
  {
    var next := Store(store.monitors - {id}, store.tables - {id});
    forall other | other in next.monitors
      ensures MonitorOk(net, next, other, nextId)
    {
      assert MonitorOk(net, store, other, nextId);
    }
  }

  lemma MonitorStepKeepsInStep(w: World, step: Step, w': World, p: Poll, net: Network)
    requires step.Create? || step.SetEnabled? || step.Delete?
    requires Next(net, w, step, w')
    requires |p.progress| == |p.active| && InStep(w.store, p) && forall m :: m in p.active ==> m.id < w.nextId
    ensures InStep(w'.store, p)
  {
  }

  lemma MonitorStepKeepsWorld(net: Network, w: World, step: Step, w': World)
    requires StoreOk(net, w.store, w.nextId) && PollsOk(net, w)
    requires step.Create? || step.SetEnabled? || step.Delete?
    requires Next(net, w, step, w')
    ensures StoreOk(net, w'.store, w'.nextId) && PollsOk(net, w')
  {
    match step {
      case Create(m) => CreateKeepsStore(net, w.store, w.nextId, m);
      case SetEnabled(id, enabled) => SetEnabledKeepsStore(net, w.store, w.nextId, id, enabled);
      case Delete(id) => DeleteKeepsStore(net, w.store, w.nextId, id);
      case _ =>
    }
    forall chain | chain in w'.polls
      ensures PollOk(net, w', chain, w'.polls[chain])
    {
      var p := w.polls[chain];
      assert PollOk(net, w, chain, p);
      MonitorStepKeepsInStep(w, step, w', p, net);
      PollKept(net, w, w', chain, p);
    }
  }

  lemma PreparedKeepsShape(net: Network, chain: nat, p: Poll, position: nat, results: seq<Decoded>)
    requires PollShape(net, chain, p) && position < |p.plans|
    requires PreparedFor(net.d, net.source(chain), p.active, p.plans[position], results)
    ensures PollShape(net, chain, p.(ready := p.ready[position := results]))
  {
  }

  lemma PrepareKeepsPolls(net: Network, w: World, step: Step, w': World)
    requires PollsOk(net, w)
    requires step.FinishPreparing? && Next(net, w, step, w')
    ensures PollsOk(net, w')
  {
    var p := w.polls[step.chain];
    PreparedKeepsShape(net, step.chain, p, step.position, step.results);
    forall chain | chain in w'.polls
      ensures PollOk(net, w', chain, w'.polls[chain])
    {
      PollKept(net, w, w', chain, w.polls[chain]);
    }
  }

  lemma StopKeepsPolls(net: Network, w: World, chain: nat, w': World)
    requires PollsOk(net, w) && w' == w.(polls := w.polls - {chain})
    ensures PollsOk(net, w')
  {
  }

  lemma StepKeepsWorld(net: Network, w: World, step: Step, w': World)
    requires StoreOk(net, w.store, w.nextId) && PollsOk(net, w)
    requires Next(net, w, step, w')
    ensures StoreOk(net, w'.store, w'.nextId) && PollsOk(net, w')
  {
    match step
    case StartPoll(_, _, _, _, _) => StartKeepsPolls(net, w, step, w');
    case FinishPreparing(_, _, _) => PrepareKeepsPolls(net, w, step, w');
    case StopPoll(chain) => StopKeepsPolls(net, w, chain, w');
    case CommitNext(chain, reply) =>
      if reply.Refused? {
        StopKeepsPolls(net, w, chain, w');
      } else {
        CommitKeepsWorld(net, w, step, w');
      }
    case _ => MonitorStepKeepsWorld(net, w, step, w');
  }

  lemma {:induction false} RunKeepsWorld(net: Network, run: seq<World>)
    requires IsRun(net, run)
    ensures StoreOk(net, run[|run| - 1].store, run[|run| - 1].nextId) && PollsOk(net, run[|run| - 1])
    decreases |run|
  {
    if |run| == 1 {
    } else {
      var before := run[..|run| - 1];
      assert IsRun(net, before);
      RunKeepsWorld(net, before);
      assert Linked(net, run[|run| - 2], run[|run| - 1]);
      var step :| Next(net, run[|run| - 2], step, run[|run| - 1]);
      StepKeepsWorld(net, run[|run| - 2], step, run[|run| - 1]);
    }
  }

  /** Exactly once, no gaps, over every run: a monitor without a cursor has no results; one with cursor
      `c` has `start <= c <= end` and its results are those of a direct scan of `start..=c`, each once;
      it is completed exactly when `c` is its end block. */
  lemma ExactlyOnceAlways(net: Network, w: World, id: nat)
    requires Reachable(net, w) && id in w.store.monitors
    ensures id in w.store.tables && WellDefined(w.store.monitors[id])
    ensures ExactlyOnce(net, w.store.monitors[id], w.store.tables[id])
  {
    var run :| IsRun(net, run) && run[|run| - 1] == w;
    RunKeepsWorld(net, run);
    assert MonitorOk(net, w.store, id, w.nextId);
  }

  lemma ReachableStep(net: Network, w: World, step: Step, w': World)
    requires Reachable(net, w) && Next(net, w, step, w')
    ensures Reachable(net, w')
  {
    var run :| IsRun(net, run) && run[|run| - 1] == w;
    var longer := run + [w'];
    forall i | 0 <= i < |longer| - 1
      ensures Linked(net, longer[i], longer[i + 1])
    {
      if i < |run| - 1 {
        assert Linked(net, run[i], run[i + 1]);
      } else {
        assert longer[i] == w && longer[i + 1] == w';
      }
    }
    assert IsRun(net, longer) && longer[|longer| - 1] == w';
  }

  lemma ReachableOk(net: Network, w: World)
    requires Reachable(net, w)
    ensures StoreOk(net, w.store, w.nextId) && PollsOk(net, w)
  {
    var run :| IsRun(net, run) && run[|run| - 1] == w;
    RunKeepsWorld(net, run);
  }

  // ---- A poll commits a prefix of its plan ----

  /** Within a monitor's share, progress has passed a block exactly when that block's plan is among the
      first `done`. */
  lemma {:induction false} ProgressIsPrefix(active: seq<Monitor>, head: U64, batch: U64, plans: seq<BlockPlan>, done: nat, j: nat,
                                            block: U64)
    requires batch >= 1 && IsPlan(active, head, batch, plans) && done <= |plans|
    requires j < |active| && SoundCursor(active[j]) && InShare(active[j], head, batch, block)
    ensures var progress := ProgressAt(active, plans, done, j);
            progress.Some? && block <= progress.value <==> exists k :: 0 <= k < done && plans[k].block == block
  {
    if done == 0 {
    } else {
      ProgressIsPrefix(active, head, batch, plans, done - 1, j, block);
      assert PlanOf(active, head, batch, plans[done - 1]);
      assert HasBlock(plans, block);
    }
  }

  /** In any reachable world, with preparations finished in any order and polls stopped anywhere: of a
      loaded monitor's share of the plan, precisely the blocks of the committed prefix are behind its
      stored cursor. */
  lemma PollCommitsPrefix(net: Network, w: World, chain: nat, j: nat, block: U64)
    requires Reachable(net, w) && chain in w.polls
    requires j < |w.polls[chain].active| && w.polls[chain].active[j].id in w.store.monitors
    requires w.polls[chain].batch >= 1 && InShare(w.polls[chain].active[j], w.polls[chain].head, w.polls[chain].batch, block)
    ensures var p, cursor := w.polls[chain], w.store.monitors[w.polls[chain].active[j].id].cursor;
            && p.done <= |p.plans| && AscendingPlans(p.plans)
            && (cursor.Some? && block <= cursor.value <==> exists k :: 0 <= k < p.done && p.plans[k].block == block)
  {
    ReachableOk(net, w);
    var p := w.polls[chain];
    assert PollOk(net, w, chain, p);
    assert p.active[j] in p.active;
    assert Agrees(w.store.monitors[p.active[j].id], p.active[j], p.progress[j]);
    ProgressIsPrefix(p.active, p.head, p.batch, p.plans, p.done, j, block);
  }

  /** A poll's copies of its monitors never disagree with storage about a target. */
  lemma CommitTargetsAgree(net: Network, w: World, chain: nat, m: Monitor)
    requires Reachable(net, w) && chain in w.polls && CanCommit(w.polls[chain])
    requires m in CommitOf(chain, w.polls[chain]).monitors && m.id in w.store.monitors
    ensures w.store.monitors[m.id].target == m.target && w.store.monitors[m.id].chain == chain
  {
    ReachableOk(net, w);
    var p := w.polls[chain];
    assert PollOk(net, w, chain, p);
    var monitors := CommitOf(chain, p).monitors;
    var k :| 0 <= k < |monitors| && monitors[k] == m;
    var j := p.plans[p.done].indices[k];
    assert j in p.plans[p.done].indices && p.active[j] == m && p.active[j] in p.active;
    assert Agrees(w.store.monitors[m.id], p.active[j], p.progress[j]);
  }

  /** No reachable cursor is near the width at which the scheduler's additions would saturate. */
  lemma NoCursorSaturates(net: Network, w: World, id: nat)
    requires Reachable(net, w) && id in w.store.monitors
    ensures var m := w.store.monitors[id];
            m.NextBlock() == (if m.cursor.Some? then m.cursor.value + 1 else m.start) <= I64_MAX + 1
  {
    ExactlyOnceAlways(net, w, id);
  }
}
