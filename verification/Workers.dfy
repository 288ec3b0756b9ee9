/** The per-chain worker as it runs: one poll from head to lag report, over shared storage that anyone
    may change between its steps. Each action is a step of the protocol, so every poll, however it ends,
    leaves a reachable world. */
module Workers {
  import opened Domain
  import opened Results
  import opened Abi
  import opened FilterProofs
  import opened Indexer
  import opened BlockDecoder
  import opened Preparer
  import opened Scheduler
  import opened Storage
  import opened Protocol
  import opened Sinks
  import opened ProtocolProofs
  import opened CatchUp
  import opened CommitProgress
  import opened SinkProofs

  datatype CommitOutcome = BlockCommitted(count: nat) | CommitCancelled
  datatype PollOutcome = Completed(head: U64, decoded: nat) | Cancelled

  // ---- Specification of a poll's position ----

  /** Storage answers with every monitor of the chain, once. */
  ghost predicate LoadedFrom(store: Store, chain: nat, monitors: seq<Monitor>) {
    && DistinctIds(monitors)
    && (forall m :: m in monitors ==> m.id in store.monitors && store.monitors[m.id] == m && m.chain == chain)
    && (forall id :: id in store.monitors && store.monitors[id].chain == chain ==> store.monitors[id] in monitors)
  }

  lemma {:induction false} KeepDistinct(monitors: seq<Monitor>, p: Monitor -> bool)
    requires DistinctIds(monitors)
    ensures DistinctIds(Keep(monitors, p))
  {
    if monitors == [] {
    } else {
      var init := monitors[..|monitors| - 1];
      KeepDistinct(init, p);
      KeepMembers(init, p);
      forall i | 0 <= i < |Keep(init, p)|
        ensures Keep(init, p)[i].id != monitors[|monitors| - 1].id
      {
        assert Keep(init, p)[i] in init;
      }
    }
  }

  lemma ActiveIsLoaded(store: Store, chain: nat, monitors: seq<Monitor>)
    requires LoadedFrom(store, chain, monitors)
    ensures Loaded(store, chain, ActiveOnly(monitors))
  {
    KeepDistinct(monitors, (m: Monitor) => m.Active());
  }

  /** How many results the first `n` blocks of a poll had. */
  function CountReady(ready: map<nat, seq<Decoded>>, n: nat): nat {
    if n == 0 then 0
    else CountReady(ready, n - 1) + if n - 1 in ready then |ready[n - 1]| else 0
  }

  lemma {:induction false} CountReadyStable(ready: map<nat, seq<Decoded>>, k: nat, results: seq<Decoded>, n: nat)
    requires n <= k
    ensures CountReady(ready[k := results], n) == CountReady(ready, n)
  {
    if n == 0 {
    } else {
      CountReadyStable(ready, k, results, n - 1);
    }
  }

  function WithResults(p: Poll, results: seq<Decoded>): Poll {
    p.(ready := p.ready[p.done := results])
  }

  /** One block further, its results prepared. */
  function CommittedOne(p: Poll, results: seq<Decoded>): Poll
    requires p.done < |p.plans|
  {
    Advanced(WithResults(p, results))
  }

  /** The imperative progress vector is the protocol's. */
  lemma ProgressFollows(p: Poll, results: seq<Decoded>, next: seq<Option<U64>>)
    requires p.done < |p.plans| && |next| == |p.progress|
    requires forall j :: 0 <= j < |p.progress| ==>
               next[j] == if j in p.plans[p.done].indices then Some(p.plans[p.done].block) else p.progress[j]
    ensures next == CommittedOne(p, results).progress
  {
  }

  function BatchOfCommit(commit: BlockCommit, number: nat): Batch {
    Batch(commit.chain, commit.block, number, commit.monitors, commit.results)
  }

  /** The world with the poll's next block committed, acknowledged and handed over. */
  function OneBlockOn(w: World, chain: nat, p: Poll): World
    requires CanCommit(p)
  {
    var commit := CommitOf(chain, p);
    w.(store := Committed(w.store, commit),
       sink := if commit.results == [] then w.sink else w.sink + [BatchOfCommit(commit, p.number)],
       polls := w.polls[chain := Advanced(p)])
  }

  function AfterReply(w: World, chain: nat, p: Poll, reply: Reply): World
    requires CanCommit(p)
  {
    match reply
    case Accepted => OneBlockOn(w, chain, p)
    case Lost => w.(store := Committed(w.store, CommitOf(chain, p)), polls := w.polls - {chain})
    case Refused => w.(polls := w.polls - {chain})
  }

  lemma CommitIsStep(net: Network, w: World, chain: nat, p: Poll, reply: Reply)
    requires Reachable(net, w) && chain in w.polls && w.polls[chain] == p && CanCommit(p)
    requires !reply.Refused? ==> Acceptable(w.store, CommitOf(chain, p))
    ensures Next(net, w, CommitNext(chain, reply), AfterReply(w, chain, p, reply))
    ensures !reply.Refused? ==> Encodable(CommitOf(chain, p))
  {
    ReachableOk(net, w);
    if !reply.Refused? {
      AppliedEncodes(net, w, chain);
    }
  }

  lemma AfterReplyContinues(w: World, chain: nat, p: Poll, reply: Reply, run: seq<World>)
    requires CanCommit(p)
    ensures Extends(chain, run, run + [AfterReply(w, chain, p, reply)], p)
  {
  }

  /** What committing a prepared block to the world `seen` makes of it: one block more in store, sink and
      poll, or, when it fails, the end of the poll, nothing in the sink, and all of the commit or nothing
      in the store. */
  ghost predicate CommitOutcomeAt(chain: nat, p: Poll, prepared: Prepared, seen: World, after: World, ok: bool) {
    var q := WithResults(p, prepared.results);
    && CanCommit(q)
    && CommitOf(chain, q) == BlockCommit(chain, prepared.plan.block, prepared.monitors, prepared.results)
    && if ok then Acceptable(seen.store, CommitOf(chain, q)) && after == OneBlockOn(seen, chain, q)
       else chain !in after.polls && after.sink == seen.sink && Atomic(seen.store, CommitOf(chain, q), false, after.store)
  }

  lemma OneBlockOnPrepared(w: World, chain: nat, q: Poll)
    requires CanCommit(q)
    ensures OneBlockOn(w.(polls := w.polls[chain := q]), chain, q) == OneBlockOn(w, chain, q)
  {
    assert w.polls[chain := q][chain := Advanced(q)] == w.polls[chain := Advanced(q)];
  }

  /** The poll works on the index's monitors, and everything before `done` is prepared and counted. */
  ghost predicate InHand(p: Poll, index: MonitorIndex, progress: seq<Option<U64>>, decoded: nat) {
    && p.active == index.monitors
    && p.progress == progress
    && p.done <= |p.plans|
    && decoded == CountReady(p.ready, p.done)
  }

  lemma InHandStep(p: Poll, index: MonitorIndex, decoded: nat, results: seq<Decoded>)
    requires InHand(p, index, p.progress, decoded) && p.done < |p.plans|
    ensures var next := CommittedOne(p, results);
            InHand(next, index, next.progress, decoded + |results|) && next.plans == p.plans && next.done == p.done + 1
  {
    CountReadyStable(p.ready, p.done, results, p.done);
  }

  /** Same poll, possibly further along. */
  ghost predicate Continues(q: Poll, p: Poll) {
    q.number == p.number && q.head == p.head && q.batch == p.batch && q.active == p.active && q.plans == p.plans
  }

  // ---- What a worker goes through ----

  /** Since `before`, no poll of the chain but this one was under way at any moment. */
  ghost predicate Extends(chain: nat, before: seq<World>, after: seq<World>, p: Poll) {
    && before <= after
    && forall k :: |before| <= k < |after| && chain in after[k].polls ==> Continues(after[k].polls[chain], p)
  }

  /** Since `before`, no poll of the chain was under way. */
  ghost predicate Quiet(chain: nat, before: seq<World>, after: seq<World>) {
    before <= after && forall k :: |before| <= k < |after| ==> chain !in after[k].polls
  }

  lemma ExtendsTrans(chain: nat, a: seq<World>, b: seq<World>, c: seq<World>, p: Poll, q: Poll)
    requires Extends(chain, a, b, p) && Extends(chain, b, c, q) && Continues(q, p)
    ensures Extends(chain, a, c, p)
  {
    forall k | |a| <= k < |c| && chain in c[k].polls
      ensures Continues(c[k].polls[chain], p)
    {
      if k < |b| {
        assert b[k] == c[k];
      }
    }
  }

  lemma QuietTrans(chain: nat, a: seq<World>, b: seq<World>, c: seq<World>)
    requires Quiet(chain, a, b) && Quiet(chain, b, c)
    ensures Quiet(chain, a, c)
  {
    forall k | |a| <= k < |c|
      ensures chain !in c[k].polls
    {
      if k < |b| {
        assert b[k] == c[k];
      }
    }
  }

  lemma OneMoreWorld(net: Network, run: seq<World>, step: Step, w: World)
    requires IsRun(net, run) && Next(net, run[|run| - 1], step, w)
    ensures IsRun(net, run + [w]) && Reachable(net, w)
  {
    var longer := run + [w];
    forall i | 0 <= i < |longer| - 1
      ensures Linked(net, longer[i], longer[i + 1])
    {
      if i < |run| - 1 {
        assert Linked(net, run[i], run[i + 1]);
      } else {
        assert longer[i] == run[|run| - 1] && longer[i + 1] == w;
      }
    }
    assert longer[|longer| - 1] == w;
  }

  /** A poll began in the `i`-th world of the run, and no other poll of the chain was under way since. */
  ghost predicate PollRan(chain: nat, run: seq<World>, i: nat, q: Poll) {
    && i + 1 < |run| && chain !in run[i].polls && chain in run[i + 1].polls
    && forall k :: i < k < |run| && chain in run[k].polls ==> Continues(run[k].polls[chain], q)
  }

  /** Such a poll began as every poll does: on the monitors stored then that are enabled and unfinished, and
      with the plan for its head. */
  lemma PollStarts(net: Network, chain: nat, run: seq<World>, i: nat, q: Poll)
    requires IsRun(net, run) && PollRan(chain, run, i, q)
    ensures Next(net, run[i], StartPoll(chain, q.head, q.batch, q.active, q.plans), run[i + 1])
    ensures Loaded(run[i].store, chain, q.active) && IsPlan(q.active, q.head, q.batch, q.plans)
  {
    assert Linked(net, run[i], run[i + 1]);
    var step :| Next(net, run[i], step, run[i + 1]);
    assert Continues(run[i + 1].polls[chain], q);
  }

  lemma ReachableKeys(net: Network, w: World)
    requires Reachable(net, w)
    ensures forall id :: id in w.store.monitors ==> w.store.monitors[id].id == id
  {
    ReachableOk(net, w);
    forall id | id in w.store.monitors
      ensures w.store.monitors[id].id == id
    {
      assert MonitorOk(net, w.store, id, w.nextId);
    }
  }

  lemma MonitorsOfPoll(chain: nat, p: Poll, index: MonitorIndex)
    requires CanCommit(p) && p.active == index.monitors
    ensures CommitOf(chain, p) ==
            BlockCommit(chain, p.plans[p.done].block, MonitorsAt(index, p.plans[p.done].indices), p.ready[p.done])
  {
  }

  lemma PlannedDistinct(net: Network, chain: nat, p: Poll)
    requires PollShape(net, chain, p) && CanCommit(p)
    ensures DistinctIds(CommitOf(chain, p).monitors)
  {
    assert PlanOf(p.active, p.head, p.batch, p.plans[p.done]);
    var indices := p.plans[p.done].indices;
    var monitors := CommitOf(chain, p).monitors;
    forall i, j | 0 <= i < j < |indices|
      ensures monitors[i].id != monitors[j].id
    {
      assert indices[i] in indices && indices[j] in indices;
    }
  }

  method AdvanceProgress(progress: seq<Option<U64>>, indices: seq<nat>, block: U64) returns (next: seq<Option<U64>>)
    requires forall j :: j in indices ==> j < |progress|
    ensures |next| == |progress|
    ensures forall j :: 0 <= j < |progress| ==> next[j] == if j in indices then Some(block) else progress[j]
  {
    next := progress;
    for k := 0 to |indices|
      invariant |next| == |progress|
      invariant forall j :: 0 <= j < |progress| ==> next[j] == if j in indices[..k] then Some(block) else progress[j]
    {
      assert indices[k] in indices;
      assert indices[..k + 1] == indices[..k] + [indices[k]];
      next := next[indices[k] := Some(block)];
    }
    assert indices[..|indices|] == indices;
  }

  /** The window's plans are the next ones of the poll. */
  ghost predicate WindowAt(p: Poll, window: Window) {
    p.done + |window| <= |p.plans| && window == p.plans[p.done..p.done + |window|]
  }

  /** What a poll in progress knows about its index. */
  ghost predicate Indexed(p: Poll, index: MonitorIndex) {
    && p.active == index.monitors && ValidIndex(index) && DistinctIds(index.monitors)
    && p.batch >= 1 && IsPlan(p.active, p.head, p.batch, p.plans)
  }

  lemma WindowSound(p: Poll, index: MonitorIndex, window: Window)
    requires Indexed(p, index) && WindowAt(p, window)
    ensures SoundPlans(window, index)
  {
  }

  /** Where a window stands after `n` of its blocks, started from poll `p`. */
  ghost predicate Along(q: Poll, p: Poll, n: nat, index: MonitorIndex, progress: seq<Option<U64>>, decoded: nat) {
    Continues(q, p) && q.done == p.done + n && InHand(q, index, progress, decoded)
  }

  lemma AlongStep(q: Poll, p: Poll, n: nat, index: MonitorIndex, decoded: nat, results: seq<Decoded>)
    requires Along(q, p, n, index, q.progress, decoded) && q.done < |q.plans|
    ensures var next := CommittedOne(q, results);
            Along(next, p, n + 1, index, next.progress, decoded + |results|)
  {
    InHandStep(q, index, decoded, results);
  }

  lemma NextPrepared(d: Decoders, src: Source, q: Poll, p: Poll, n: nat, index: MonitorIndex, window: Window, block: Prepared)
    requires WindowAt(p, window) && n < |window| && Continues(q, p) && q.done == p.done + n
    requires PreparedAt(d, src, index, window[n], block)
    ensures q.done < |q.plans| && PreparedAt(d, src, index, q.plans[q.done], block)
  {
  }

  /** How many plans the first `n` windows hold. */
  function Covered(windows: seq<Window>, n: nat): nat
    requires n <= |windows|
  {
    |Flatten(windows[..n])|
  }

  lemma {:induction false} FlattenPrefix(windows: seq<Window>, n: nat)
    requires n <= |windows|
    ensures Flatten(windows[..n]) <= Flatten(windows)
    decreases |windows|
  {
    if n < |windows| {
      FlattenPrefix(windows[..|windows| - 1], n);
      assert windows[..|windows| - 1][..n] == windows[..n];
    } else {
      assert windows[..n] == windows;
    }
  }

  /** The next window starts where the windows before it end. */
  lemma NextWindow(p: Poll, windows: seq<Window>, n: nat)
    requires n < |windows| && Flatten(windows) == p.plans && p.done == Covered(windows, n)
    ensures WindowAt(p, windows[n]) && p.done + |windows[n]| == Covered(windows, n + 1)
  {
    assert windows[..n + 1][..n] == windows[..n];
    FlattenPrefix(windows, n + 1);
    assert Flatten(windows[..n + 1]) == Flatten(windows[..n]) + windows[n];
  }

  /** A completed poll: every plan is committed, and each loaded monitor that still exists stands where
      the poll's share of its range ends. */
  ghost predicate Finished(store: Store, q: Poll) {
    && q.batch >= 1 && q.done == |q.plans| && |q.progress| == |q.active|
    && forall j :: 0 <= j < |q.active| ==>
         && q.progress[j] == CursorAfterPoll(q.active[j], q.head, q.batch)
         && (q.active[j].id in store.monitors ==> store.monitors[q.active[j].id].cursor == q.progress[j])
  }

  lemma PollFinishes(net: Network, w: World, chain: nat, q: Poll)
    requires PollOk(net, w, chain, q) && q.done == |q.plans|
    ensures Finished(w.store, q)
    ensures forall j :: 0 <= j < |q.active| ==> LagOf(q.active[j], q.progress[j], q.head) == Remaining(q.active[j], q.progress[j], q.head)
  {
    forall j | 0 <= j < |q.active|
      ensures q.progress[j] == CursorAfterPoll(q.active[j], q.head, q.batch)
      ensures q.active[j].id in w.store.monitors ==> w.store.monitors[q.active[j].id].cursor == q.progress[j]
      ensures LagOf(q.active[j], q.progress[j], q.head) == Remaining(q.active[j], q.progress[j], q.head)
    {
      assert q.active[j] in q.active;
      CompletedPollReaches(q.active, q.head, q.batch, q.plans, j);
      CompletedPollReportsExactly(q.active, q.head, q.batch, q.plans, j);
      assert q.active[j].id in w.store.monitors ==> Agrees(w.store.monitors[q.active[j].id], q.active[j], q.progress[j]);
    }
  }

  /** No planned block lies above the head. */
  lemma PlannedUpTo(active: seq<Monitor>, head: U64, batch: U64, plans: seq<BlockPlan>)
    requires batch >= 1 && IsPlan(active, head, batch, plans)
    ensures forall plan :: plan in plans ==> plan.block <= head
  {
    forall k | 0 <= k < |plans|
      ensures plans[k].block <= head
    {
      assert PlanOf(active, head, batch, plans[k]);
      var j := plans[k].indices[0];
      assert j in plans[k].indices;
      assert InShare(active[j], head, batch, plans[k].block);
    }
  }

  lemma SameGreatest(top: nat, active: seq<Monitor>, a: nat -> nat, b: nat -> nat)
    requires IsGreatest(top, active, a, |active|) && forall j: nat :: j < |active| ==> a(j) == b(j)
    ensures IsGreatest(top, active, b, |active|)
  {
  }

  /** A refusal without a storage failure means that a loaded monitor is gone. */
  lemma RefusedForDeletion(net: Network, w: World, chain: nat)
    requires ValidNetwork(net) && SoundChain(net.source(chain)) && Reachable(net, w)
    requires chain in w.polls && CanCommit(w.polls[chain]) && w.polls[chain].head <= I64_MAX
    requires !Acceptable(w.store, CommitOf(chain, w.polls[chain]))
    ensures exists m :: m in w.polls[chain].active && m.id !in w.store.monitors
  {
    OnlyDeletionRefuses(net, w, chain);
    var p := w.polls[chain];
    var monitors := CommitOf(chain, p).monitors;
    var m :| m in monitors && m.id !in w.store.monitors;
    var k :| 0 <= k < |monitors| && monitors[k] == m;
    assert p.plans[p.done].indices[k] in p.plans[p.done].indices;
    assert m in p.active;
  }

  /** Stored filters are compiled and stored layouts decodable, so neither can fail a poll. */
  lemma StoredAreFit(net: Network, w: World, m: Monitor)
    requires Reachable(net, w) && m.id in w.store.monitors && w.store.monitors[m.id] == m
    ensures CompiledFor(m.filter, m.target) && (m.target.EventTarget? ==> Decodable(m.target.params))
  {
    ReachableOk(net, w);
    assert MonitorOk(net, w.store, m.id, w.nextId);
  }

  class Worker {
    const net: Network
    const chain: nat
    const batch: U64
    const cache: BlockCache
    const node: Endpoint
    var store: Store
    var sink: seq<SinkBatch>
    var lag: Option<U64>
    var cancelled: bool
    ghost var storageFailed: bool
    ghost var world: World
    /** Every world so far, the present one last. */
    ghost var run: seq<World>

    ghost predicate Valid()
      reads this`store, this`sink, this`world, this`run, cache
    {
      && batch >= 1 && ValidNetwork(net) && node.src == net.source(chain)
      && cache.Consistent(net.source(chain))
      && Past()
      && world.store == store && CarriesAll(sink, world.sink)
    }

    /** The worlds so far are a run of the protocol up to the present one. */
    ghost predicate Past()
      reads this`world, this`run
    {
      IsRun(net, run) && run[|run| - 1] == world
    }

    /** What may end a poll with an error: the node or the storage failed a request, or a monitor the poll
        had loaded was deleted. */
    ghost predicate Excused(active: seq<Monitor>)
      reads this`store, this`storageFailed, node`failed
    {
      node.failed || storageFailed || exists m :: m in active && m.id !in store.monitors
    }

    /** The chain has unique identities and its head is a number storage can hold. */
    ghost predicate Sound(head: U64) {
      SoundChain(net.source(chain)) && head <= I64_MAX
    }

    /** No poll of this chain is under way. */
    ghost predicate Idle()
      reads this`world
    {
      chain !in world.polls
    }

    ghost predicate At(p: Poll)
      reads this`world
    {
      chain in world.polls && world.polls[chain] == p
    }

    constructor (net: Network, chain: nat, batch: U64)
      requires batch >= 1 && ValidNetwork(net)
      ensures Valid() && Idle() && store == Store(map[], map[]) && sink == [] && fresh(cache) && fresh(node)
      ensures this.net == net && this.chain == chain && this.batch == batch
    {
      this.net, this.chain, this.batch := net, chain, batch;
      cache := new BlockCache();
      node := new Endpoint(net.source(chain));
      store, sink, lag := Store(map[], map[]), [], None;
      cancelled, storageFailed := false, false;
      world := World(Store(map[], map[]), 0, map[], 0, []);
      run := [World(Store(map[], map[]), 0, map[], 0, [])];
      new;
      assert IsRun(net, run) && run[|run| - 1] == world;
    }

    lemma Here()
      requires Past()
      ensures Reachable(net, world)
    {
    }

    /** Goes on to the next world. */
    ghost method Take(step: Step, next: World)
      requires Past() && Next(net, world, step, next)
      modifies this`world, this`run
      ensures Past() && world == next && run == old(run) + [next]
    {
      OneMoreWorld(net, run, step, next);
      world, run := next, run + [next];
    }

    /** What anyone else may do between two steps of this worker: any protocol steps that are not its
        own, and a cancellation, which is never taken back. The contract, not the body, is what the rest
        relies on. */
    method Others()
      requires Valid()
      modifies this`store, this`sink, this`world, this`run, this`cancelled
      ensures Valid() && (old(cancelled) ==> cancelled)
      ensures Idle() <==> old(Idle())
      ensures old(Idle()) ==> Quiet(chain, old(run), run)
      ensures forall p :: old(At(p)) ==> At(p) && Extends(chain, old(run), run, p)
    {
      if * {
        cancelled := true;
      }
      var id: nat := *;
      if id in store.monitors {
        if * {
          store := Store(store.monitors - {id}, store.tables - {id});
          Take(Delete(id), world.(store := store));
        } else {
          var enabled: bool := *;
          store := store.(monitors := store.monitors[id := store.monitors[id].(enabled := enabled)]);
          Take(SetEnabled(id, enabled), world.(store := store));
        }
      }
    }

    method LoadMonitors() returns (r: Result<seq<Monitor>>)
      requires Valid()
      modifies this`storageFailed
      ensures Valid()
      ensures r.Ok? ==> LoadedFrom(store, chain, r.value)
      ensures r.Err? ==> storageFailed
    {
      if * {
        storageFailed := true;
        return Err;
      }
      Here();
      ReachableKeys(net, world);
      var monitors: seq<Monitor> := [];
      var rest := store.monitors.Keys;
      while rest != {}
        invariant rest <= store.monitors.Keys && Valid()
        invariant DistinctIds(monitors)
        invariant forall m :: m in monitors ==>
                    m.id in store.monitors && store.monitors[m.id] == m && m.chain == chain && m.id !in rest
        invariant forall id :: id in store.monitors && id !in rest && store.monitors[id].chain == chain ==>
                    store.monitors[id] in monitors
        decreases rest
      {
        var id :| id in rest;
        if store.monitors[id].chain == chain {
          monitors := monitors + [store.monitors[id]];
        }
        rest := rest - {id};
      }
      r := Ok(monitors);
    }

    /** The storage port: all of the commit, or nothing; success may still be reported as an error. */
    method CommitBlock(commit: BlockCommit) returns (reply: Reply)
      modifies this`store, this`storageFailed
      ensures reply.Refused? ==> store == old(store)
      ensures !reply.Accepted? ==> storageFailed || !Acceptable(old(store), commit)
      ensures !reply.Refused? ==> Acceptable(old(store), commit) && store == Committed(old(store), commit)
    {
      if !Acceptable(store, commit) {
        return Refused;
      }
      if * {
        storageFailed := true;
        return Refused;
      }
      store := Committed(store, commit);
      if * {
        storageFailed := true;
        return Lost;
      }
      reply := Accepted;
    }

    /** Ends the poll where it stands. */
    ghost method Stop(p: Poll)
      requires Valid() && At(p)
      modifies this`world, this`run
      ensures Valid() && Idle() && world == old(world).(polls := old(world).polls - {chain})
      ensures run == old(run) + [world] && Extends(chain, old(run), run, p)
    {
      var next := world.(polls := world.polls - {chain});
      Take(StopPoll(chain), next);
    }

    ghost method Begin(head: U64, active: seq<Monitor>, plans: seq<BlockPlan>) returns (p: Poll)
      requires Valid() && Idle() && Loaded(store, chain, active) && IsPlan(active, head, batch, plans)
      modifies this`world, this`run
      ensures Valid() && At(p)
      ensures p.head == head && p.batch == batch && p.active == active && p.plans == plans
      ensures p.done == 0 && p.ready == map[] && p.progress == Cursors(active)
      ensures run == old(run) + [world] && PollRan(chain, run, |old(run)| - 1, p)
    {
      p := Poll(world.nextPoll, head, batch, active, plans, 0, map[], Cursors(active));
      var next := world.(nextPoll := world.nextPoll + 1, polls := world.polls[chain := p]);
      Take(StartPoll(chain, head, batch, active, plans), next);
    }

    ghost method Prepare(p: Poll, results: seq<Decoded>) returns (q: Poll)
      requires Valid() && At(p) && p.done < |p.plans|
      requires PreparedFor(net.d, net.source(chain), p.active, p.plans[p.done], results)
      modifies this`world, this`run
      ensures Valid() && At(q) && q == WithResults(p, results)
      ensures world == old(world).(polls := old(world).polls[chain := q])
      ensures Extends(chain, old(run), run, p)
    {
      q := WithResults(p, results);
      var next := world.(polls := world.polls[chain := q]);
      Take(FinishPreparing(chain, p.done, results), next);
    }

    /** Hands the batch of a committed block to the sink; one that does not encode is dropped. */
    method Submit(commit: BlockCommit, ghost number: nat)
      requires DistinctIds(commit.monitors)
      modifies this`sink
      ensures Encodable(commit) ==> HandedOver(old(sink), sink, BatchOfCommit(commit, number))
      ensures !Encodable(commit) ==> sink == old(sink)
    {
      var encoded := EncodeBatch(commit);
      if encoded.Ok? && encoded.value.Some? {
        sink := sink + [encoded.value.value];
      }
    }

    /** The protocol's step for a commit with that reply. */
    ghost method TakeReply(p: Poll, reply: Reply)
      requires Past() && At(p) && CanCommit(p)
      requires !reply.Refused? ==> Acceptable(world.store, CommitOf(chain, p))
      modifies this`world, this`run
      ensures Past() && world == AfterReply(old(world), chain, p, reply)
      ensures Extends(chain, old(run), run, p)
      ensures !reply.Refused? ==> Encodable(CommitOf(chain, p))
    {
      Here();
      CommitIsStep(net, world, chain, p, reply);
      AfterReplyContinues(world, chain, p, reply, run);
      Take(CommitNext(chain, reply), AfterReply(world, chain, p, reply));
    }

    /** Storage, then sink: an acknowledged commit is in the store and its batch is handed to the sink;
        otherwise nothing is handed over, and the store has all of the commit or nothing. */
    method CommitReady(ghost p: Poll, commit: BlockCommit) returns (ok: bool)
      requires Valid() && At(p) && CanCommit(p) && commit == CommitOf(chain, p) && DistinctIds(commit.monitors)
      modifies this`store, this`sink, this`world, this`run, this`storageFailed
      ensures Valid()
      ensures ok ==> Acceptable(old(store), commit) && store == Committed(old(store), commit)
      ensures ok ==> HandedOver(old(sink), sink, BatchOfCommit(commit, p.number))
      ensures ok ==> world == OneBlockOn(old(world), chain, p)
      ensures !ok ==> sink == old(sink) && Atomic(old(store), commit, false, store)
      ensures !ok ==> Idle() && world.sink == old(world.sink)
      ensures Extends(chain, old(run), run, p)
      ensures !ok && Sound(p.head) ==> Excused(p.active)
    {
      Here();
      var reply := CommitBlock(commit);
      ok := reply.Accepted?;
      TakeReply(p, reply);
      if ok {
        Submit(commit, p.number);
        CarriesOneMore(old(sink), sink, old(world).sink, BatchOfCommit(commit, p.number));
      }
      if reply.Refused? && Sound(p.head) && !storageFailed {
        RefusedForDeletion(net, old(world), chain);
      }
    }

    /** Marks the block prepared and commits it. */
    method CommitResults(ghost p: Poll, ghost index: MonitorIndex, prepared: Prepared) returns (ok: bool)
      requires Valid() && At(p) && p.done < |p.plans| && p.active == index.monitors
      requires PreparedAt(net.d, net.source(chain), index, p.plans[p.done], prepared)
      modifies this`store, this`sink, this`world, this`run, this`storageFailed
      ensures Valid() && |p.progress| == |p.active|
      ensures CommitOutcomeAt(chain, p, prepared, old(world), world, ok)
      ensures if ok then At(CommittedOne(p, prepared.results)) else Idle()
      ensures Extends(chain, old(run), run, p)
      ensures !ok && Sound(p.head) ==> Excused(p.active)
    {
      var commit := BlockCommit(chain, prepared.plan.block, prepared.monitors, prepared.results);
      ghost var q := Prepare(p, prepared.results);
      ReadyToCommit(q, index);
      OneBlockOnPrepared(old(world), chain, q);
      ghost var middle := run;
      ok := CommitReady(q, commit);
      ExtendsTrans(chain, old(run), middle, run, p, q);
    }

    /** Commits one prepared block: permit or cancellation, commit, progress. `seen` is the world in which
        cancellation was last looked at. */
    method CommitPrepared(ghost p: Poll, ghost index: MonitorIndex, prepared: Prepared, progress: seq<Option<U64>>)
      returns (r: Result<CommitOutcome>, next: seq<Option<U64>>, ghost seen: World)
      requires Valid() && At(p) && p.done < |p.plans| && p.active == index.monitors && p.progress == progress
      requires PreparedAt(net.d, net.source(chain), index, p.plans[p.done], prepared)
      modifies this`store, this`sink, this`world, this`run, this`storageFailed, this`cancelled
      ensures Valid()
      ensures Reachable(net, seen) && chain in seen.polls && seen.polls[chain] == p
      ensures Extends(chain, old(run), run, p)
      ensures r == Ok(CommitCancelled) ==> cancelled && Idle() && world == seen.(polls := seen.polls - {chain})
      ensures r != Ok(CommitCancelled) ==> CommitOutcomeAt(chain, p, prepared, seen, world, r.Ok?)
      ensures r.Err? && Sound(p.head) ==> Excused(p.active)
      ensures r.Ok? && r.value.BlockCommitted? ==> r.value.count == |prepared.results|
      ensures r.Ok? && r.value.BlockCommitted? ==>
                At(CommittedOne(p, prepared.results)) && next == CommittedOne(p, prepared.results).progress
      ensures !(r.Ok? && r.value.BlockCommitted?) ==> Idle()
    {
      next := progress;
      Others();
      Here();
      seen := world;
      ghost var middle := run;
      if cancelled {
        Stop(p);
        ExtendsTrans(chain, old(run), middle, run, p, p);
        return Ok(CommitCancelled), next, seen;
      }
      var ok := CommitResults(p, index, prepared);
      ExtendsTrans(chain, old(run), middle, run, p, p);
      if !ok {
        return Err, next, seen;
      }
      next := AdvanceProgress(progress, prepared.plan.indices, prepared.plan.block);
      ProgressFollows(p, prepared.results, next);
      r := Ok(BlockCommitted(|prepared.results|));
    }

    lemma ReadyToCommit(p: Poll, index: MonitorIndex)
      requires Valid() && At(p) && CanCommit(p) && p.active == index.monitors
      ensures CommitOf(chain, p) ==
              BlockCommit(chain, p.plans[p.done].block, MonitorsAt(index, p.plans[p.done].indices), p.ready[p.done])
      ensures DistinctIds(CommitOf(chain, p).monitors)
      ensures |p.progress| == |p.active|
    {
      Here();
      ReachableOk(net, world);
      assert PollOk(net, world, chain, p);
      MonitorsOfPoll(chain, p, index);
      PlannedDistinct(net, chain, p);
    }

    /** Commits a window's prepared blocks in order. It stops at the first one that failed to prepare or
        to commit, or at a cancellation. */
    method CommitWindow(ghost p: Poll, index: MonitorIndex, window: Window, prepared: seq<Result<Prepared>>,
                        progress: seq<Option<U64>>, decoded: nat)
      returns (r: Result<bool>, next: seq<Option<U64>>, total: nat, ghost q: Poll)
      requires Valid() && At(p) && WindowAt(p, window) && InHand(p, index, progress, decoded)
      requires |prepared| == |window| && AllPrepared(net.d, net.source(chain), index, window, prepared)
      requires (exists k :: 0 <= k < |prepared| && prepared[k].Err?) ==> node.failed
      modifies this`store, this`sink, this`world, this`run, this`storageFailed, this`cancelled
      ensures Valid()
      ensures r == Ok(false) ==> cancelled
      ensures r.Err? && Sound(p.head) ==> Excused(p.active)
      ensures r == Ok(true) ==> At(q) && Along(q, p, |window|, index, next, total)
      ensures r != Ok(true) ==> Idle()
      ensures Extends(chain, old(run), run, p)
    {
      next, total, q := progress, decoded, p;
      var i := 0;
      while i < |window|
        invariant 0 <= i <= |window| && Valid() && At(q)
        invariant Along(q, p, i, index, next, total) && Extends(chain, old(run), run, p)
      {
        ghost var before := run;
        if prepared[i].Err? {
          Stop(q);
          ExtendsTrans(chain, old(run), before, run, p, q);
          return Err, next, total, q;
        }
        var block := prepared[i].value;
        NextPrepared(net.d, net.source(chain), q, p, i, index, window, block);
        var committed;
        ghost var seen;
        committed, next, seen := CommitPrepared(q, index, block, next);
        ExtendsTrans(chain, old(run), before, run, p, q);
        if committed.Err? {
          return Err, next, total, q;
        }
        if committed.value.CommitCancelled? {
          return Ok(false), next, total, q;
        }
        AlongStep(q, p, i, index, total, block.results);
        q := CommittedOne(q, block.results);
        total := total + committed.value.count;
        i := i + 1;
      }
      r := Ok(true);
    }

    /** A window with event monitors: everything is prepared first, then committed block by block. The
        result tells whether the window went through; otherwise the poll has ended. */
    method RunEventWindow(ghost p: Poll, index: MonitorIndex, query: LogQuery, window: Window,
                          progress: seq<Option<U64>>, decoded: nat)
      returns (r: Result<bool>, next: seq<Option<U64>>, total: nat, ghost q: Poll)
      requires Valid() && At(p) && Indexed(p, index) && WindowAt(p, window) && InHand(p, index, progress, decoded)
      requires window != [] && query.first == window[0].block && query.last == window[|window| - 1].block
      requires WindowTargets(query.targets, window, index)
      modifies this`store, this`sink, this`world, this`run, this`storageFailed, this`cancelled, cache, node`failed, node`requests
      ensures Valid()
      ensures r == Ok(false) ==> cancelled
      ensures r.Err? && Sound(p.head) ==> Excused(p.active)
      ensures r == Ok(true) ==> At(q) && Along(q, p, |window|, index, next, total)
      ensures r != Ok(true) ==> Idle()
      ensures Extends(chain, old(run), run, p)
    {
      next, total, q := progress, decoded, p;
      WindowSound(p, index, window);
      HealthyIndex(p, index);
      var prepared := PrepareEventWindow(net.d, node, cache, window, query, index);
      Others();
      ghost var middle := run;
      if cancelled {
        Stop(p);
        ExtendsTrans(chain, old(run), middle, run, p, p);
        return Ok(false), next, total, q;
      }
      if prepared.Err? {
        Stop(p);
        ExtendsTrans(chain, old(run), middle, run, p, p);
        return Err, next, total, q;
      }
      r, next, total, q := CommitWindow(p, index, window, prepared.value, progress, decoded);
      ExtendsTrans(chain, old(run), middle, run, p, p);
    }

    /** One block of a window no event monitor is planned in. */
    method PrepareCallBlock(ghost p: Poll, index: MonitorIndex, window: Window, i: nat) returns (r: Result<Prepared>)
      requires Valid() && Indexed(p, index) && SoundPlans(window, index) && WindowTargets({}, window, index) && i < |window|
      requires Healthy(net.d, index)
      modifies cache, node`failed, node`requests
      ensures Valid()
      ensures r.Err? ==> node.failed
      ensures r.Ok? ==> PreparedAt(net.d, net.source(chain), index, window[i], r.value)
    {
      var calls := PrepareCalls(net.d, node, cache, window[i], index);
      if calls.Err? {
        return Err;
      }
      forall j | 0 <= j < |index.monitors| && IsPlanned(index.monitors, j, window[i].block, window[i].indices)
        ensures ScanEvents(net.d, index.monitors[j], window[i].block, []) ==
                ScanEvents(net.d, index.monitors[j], window[i].block, net.source(chain).logs(window[i].block))
      {
        NoEventsPlanned(net.d, net.source(chain), window, i, index, j);
      }
      r := FinishPrepared(net.d, net.source(chain), index, window[i], calls.value, []);
    }

    /** One block of such a window: prepared, then committed. */
    method RunCallBlock(ghost p: Poll, ghost q: Poll, index: MonitorIndex, window: Window, i: nat, progress: seq<Option<U64>>, decoded: nat)
      returns (r: Result<bool>, next: seq<Option<U64>>, total: nat, ghost done: Poll)
      requires Valid() && At(q) && Indexed(p, index) && WindowAt(p, window) && SoundPlans(window, index)
      requires WindowTargets({}, window, index) && Healthy(net.d, index)
      requires i < |window| && Along(q, p, i, index, progress, decoded)
      modifies this`store, this`sink, this`world, this`run, this`storageFailed, this`cancelled, cache, node`failed, node`requests
      ensures Valid()
      ensures r == Ok(false) ==> cancelled
      ensures r.Err? && Sound(p.head) ==> Excused(p.active)
      ensures r == Ok(true) ==> At(done) && Along(done, p, i + 1, index, next, total)
      ensures r != Ok(true) ==> Idle()
      ensures Extends(chain, old(run), run, q)
    {
      next, total, done := progress, decoded, q;
      Others();
      ghost var middle := run;
      if cancelled {
        Stop(q);
        ExtendsTrans(chain, old(run), middle, run, q, q);
        return Ok(false), next, total, done;
      }
      var prepared := PrepareCallBlock(p, index, window, i);
      if prepared.Err? {
        Stop(q);
        ExtendsTrans(chain, old(run), middle, run, q, q);
        return Err, next, total, done;
      }
      NextPrepared(net.d, net.source(chain), q, p, i, index, window, prepared.value);
      var committed;
      ghost var seen;
      committed, next, seen := CommitPrepared(q, index, prepared.value, next);
      ExtendsTrans(chain, old(run), middle, run, q, q);
      if committed.Err? {
        return Err, next, total, done;
      }
      if committed.value.CommitCancelled? {
        return Ok(false), next, total, done;
      }
      AlongStep(q, p, i, index, total, prepared.value.results);
      done := CommittedOne(q, prepared.value.results);
      total := total + committed.value.count;
      r := Ok(true);
    }

    /** A window without event monitors: each block is prepared and committed in turn. */
    method RunCallWindow(ghost p: Poll, index: MonitorIndex, window: Window, progress: seq<Option<U64>>, decoded: nat)
      returns (r: Result<bool>, next: seq<Option<U64>>, total: nat, ghost q: Poll)
      requires Valid() && At(p) && Indexed(p, index) && WindowAt(p, window) && InHand(p, index, progress, decoded)
      requires WindowTargets({}, window, index)
      modifies this`store, this`sink, this`world, this`run, this`storageFailed, this`cancelled, cache, node`failed, node`requests
      ensures Valid()
      ensures r == Ok(false) ==> cancelled
      ensures r.Err? && Sound(p.head) ==> Excused(p.active)
      ensures r == Ok(true) ==> At(q) && Along(q, p, |window|, index, next, total)
      ensures r != Ok(true) ==> Idle()
      ensures Extends(chain, old(run), run, p)
    {
      next, total, q := progress, decoded, p;
      WindowSound(p, index, window);
      HealthyIndex(p, index);
      var i := 0;
      while i < |window|
        invariant 0 <= i <= |window| && Valid() && At(q)
        invariant Along(q, p, i, index, next, total) && Extends(chain, old(run), run, p)
      {
        ghost var before, was := run, q;
        r, next, total, q := RunCallBlock(p, q, index, window, i, next, total);
        ExtendsTrans(chain, old(run), before, run, p, was);
        if r != Ok(true) {
          return;
        }
        i := i + 1;
      }
      r := Ok(true);
    }

    lemma HealthyIndex(p: Poll, index: MonitorIndex)
      requires Valid() && At(p) && p.active == index.monitors
      ensures Healthy(net.d, index)
    {
      Here();
      ReachableOk(net, world);
      assert PollOk(net, world, chain, p);
      assert forall m :: m in p.active ==> SoundCursor(m);
    }

    method RunWindow(ghost p: Poll, index: MonitorIndex, window: Window, progress: seq<Option<U64>>, decoded: nat)
      returns (r: Result<bool>, next: seq<Option<U64>>, total: nat, ghost q: Poll)
      requires Valid() && At(p) && Indexed(p, index) && WindowAt(p, window) && InHand(p, index, progress, decoded)
      modifies this`store, this`sink, this`world, this`run, this`storageFailed, this`cancelled, cache, node`failed, node`requests
      ensures Valid()
      ensures r == Ok(false) ==> cancelled
      ensures r.Err? && Sound(p.head) ==> Excused(p.active)
      ensures r == Ok(true) ==> At(q) && Along(q, p, |window|, index, next, total)
      ensures r != Ok(true) ==> Idle()
      ensures Extends(chain, old(run), run, p)
    {
      WindowSound(p, index, window);
      var query := BuildLogQuery(window, index);
      if query.value.Some? {
        r, next, total, q := RunEventWindow(p, index, query.value.value, window, progress, decoded);
      } else {
        r, next, total, q := RunCallWindow(p, index, window, progress, decoded);
      }
    }

    method RunWindows(ghost p: Poll, index: MonitorIndex, windows: seq<Window>)
      returns (r: Result<bool>, progress: seq<Option<U64>>, decoded: nat, ghost q: Poll)
      requires Valid() && At(p) && Indexed(p, index) && Flatten(windows) == p.plans
      requires p.done == 0 && p.ready == map[] && p.progress == Cursors(index.monitors)
      modifies this`store, this`sink, this`world, this`run, this`storageFailed, this`cancelled, cache, node`failed, node`requests
      ensures Valid()
      ensures r == Ok(false) ==> cancelled
      ensures r.Err? && Sound(p.head) ==> Excused(p.active)
      ensures r == Ok(true) ==> At(q) && Along(q, p, |p.plans|, index, progress, decoded)
      ensures r != Ok(true) ==> Idle()
      ensures Extends(chain, old(run), run, p)
    {
      progress, decoded, q := Cursors(index.monitors), 0, p;
      var i := 0;
      assert windows[..0] == [];
      while i < |windows|
        invariant 0 <= i <= |windows| && Valid() && At(q)
        invariant Along(q, p, Covered(windows, i), index, progress, decoded) && Extends(chain, old(run), run, p)
      {
        NextWindow(q, windows, i);
        ghost var before, was := run, q;
        r, progress, decoded, q := RunWindow(q, index, windows[i], progress, decoded);
        ExtendsTrans(chain, old(run), before, run, p, was);
        if r != Ok(true) {
          return;
        }
        i := i + 1;
      }
      assert windows[..|windows|] == windows;
      r := Ok(true);
    }

    /** Drops cached blocks below every active monitor's next block, and no block any of them needs. */
    method Evict(active: seq<Monitor>, progress: seq<Option<U64>>)
      requires |active| == |progress|
      modifies cache
      ensures forall n :: n in cache.entries ==> n in old(cache.entries) && cache.entries[n] == old(cache.entries)[n]
      ensures forall n :: n in old(cache.entries) && n !in cache.entries ==>
                forall j :: 0 <= j < |active| ==> n < CursorNext(progress[j], active[j].start)
      ensures active != [] ==> forall n :: n in cache.entries ==>
                exists j :: 0 <= j < |active| && CursorNext(progress[j], active[j].start) <= n
    {
      var bound := EvictionBound(active, progress);
      if bound.Some? {
        cache.EvictBefore(bound.value);
      }
    }

    /** Reports the greatest lag, which is the true one once the plan is committed. */
    method MeasureLag(active: seq<Monitor>, progress: seq<Option<U64>>, head: U64)
      requires |active| == |progress|
      requires forall j: nat :: j < |active| ==> LagAt(active, progress, head)(j) == RemainingAt(active, progress, head)(j)
      modifies this`lag
      ensures lag.Some? && IsGreatest(lag.value, active, RemainingAt(active, progress, head), |active|)
    {
      var reported := ReportLag(active, progress, head);
      SameGreatest(reported, active, LagAt(active, progress, head), RemainingAt(active, progress, head));
      lag := Some(reported);
    }

    /** The poll was at `q` when it ended. */
    ghost predicate EndedAt(q: Poll)
      reads this`run
    {
      |run| >= 2 && chain in run[|run| - 2].polls && run[|run| - 2].polls[chain] == q
    }

    /** What `Concluded` says beside the end of every monitor's share. */
    ghost predicate Reported(q: Poll)
      reads this`lag
    {
      && SoundActive(chain, q.active) && q.batch == batch && q.batch >= 1 && IsPlan(q.active, q.head, q.batch, q.plans)
      && |q.active| == |q.progress|
      && lag.Some? && IsGreatest(lag.value, q.active, RemainingAt(q.active, q.progress, q.head), |q.active|)
    }

    /** Eviction and lag of a poll whose plan is committed. */
    method Conclude(ghost q: Poll, active: seq<Monitor>, progress: seq<Option<U64>>, head: U64)
      requires Valid() && At(q) && q.done == |q.plans| && q.active == active && q.progress == progress && q.head == head && q.batch == batch
      modifies this`lag, this`world, this`run, cache
      ensures Valid() && Idle() && Finished(store, q) && Reported(q)
      ensures run == old(run) + [world] && Extends(chain, old(run), run, q) && EndedAt(q)
    {
      FinishedHere(q);
      SoundPoll(q);
      Evict(active, progress);
      MeasureLag(active, progress, head);
      Stop(q);
    }

    lemma FinishedHere(q: Poll)
      requires Valid() && At(q) && q.done == |q.plans|
      ensures Finished(store, q)
      ensures forall j: nat :: j < |q.active| ==> LagAt(q.active, q.progress, q.head)(j) == RemainingAt(q.active, q.progress, q.head)(j)
    {
      Here();
      ReachableOk(net, world);
      assert PollOk(net, world, chain, q);
      PollFinishes(net, world, chain, q);
    }

    /** Every monitor to poll with, indexed; only storage can fail it. */
    method LoadIndex() returns (r: Result<MonitorIndex>)
      requires Valid()
      modifies this`storageFailed
      ensures Valid()
      ensures r.Ok? ==> ValidIndex(r.value) && Loaded(store, chain, r.value.monitors)
      ensures r.Err? ==> storageFailed
    {
      var monitors := LoadMonitors();
      if monitors.Err? {
        return Err;
      }
      ActiveIsLoaded(store, chain, monitors.value);
      r := NewIndex(monitors.value);
      forall m | m in ActiveOnly(monitors.value) && m.target.EventTarget?
        ensures Decodable(m.target.params)
      {
        Here();
        StoredAreFit(net, world, m);
      }
    }

    /** A completed poll committed its whole plan and reports the true lag. */
    ghost predicate Concluded(q: Poll, outcome: PollOutcome)
      reads this`store, this`lag
    {
      Finished(store, q) && Reported(q) && outcome == Completed(q.head, CountReady(q.ready, |q.plans|))
    }

    /** Since `start`, the chain's only poll is `q`. It began in the `begun`-th world, with the head the node
        answered, and plans nothing above it. */
    ghost predicate Began(start: seq<World>, begun: nat, q: Poll)
      reads this`run, node`finalized
    {
      && |start| <= begun + 1 < |run| && Quiet(chain, start, run[..begun + 1])
      && PollRan(chain, run, begun, q) && q.batch == batch
      && node.finalized == Some(q.head) && forall plan :: plan in q.plans ==> plan.block <= q.head
    }

    /** One poll. However it ends, the world it leaves is reachable and no poll of this chain is left
        over. Either no poll began: then it was cancelled, or the node or the storage failed. Or one poll
        began, in the `begun`-th world, on the monitors stored then and with the head the node answered,
        and none of its plan lies above that head: it completes with its whole plan committed, or it was
        cancelled, or it ends in error because the node or the storage failed a request or a loaded monitor
        was deleted. */
    method RunOnce() returns (r: Result<PollOutcome>, ghost begun: Option<nat>, ghost q: Poll)
      requires Valid() && Idle()
      modifies this, cache, node
      ensures Valid() && Idle() && old(run) <= run
      ensures begun.None? ==> Quiet(chain, old(run), run)
      ensures begun.None? && r.Ok? ==> r.value.Cancelled?
      ensures begun.None? && r.Err? ==> node.failed || storageFailed
      ensures begun.Some? ==> Began(old(run), begun.value, q)
      ensures begun.Some? && r.Ok? && r.value.Completed? ==> EndedAt(q) && Concluded(q, r.value)
      ensures r == Ok(Cancelled) ==> cancelled
      ensures begun.Some? && r.Err? && Sound(q.head) ==> Excused(q.active)
    {
      q, begun := Poll(0, 0, 1, [], [], 0, map[], []), None;
      storageFailed, node.failed := false, false;
      var loaded := LoadPoll();
      if loaded.Err? {
        return Err, begun, q;
      }
      if loaded.value.None? {
        return Ok(Cancelled), begun, q;
      }
      r, begun, q := RunLoaded(old(run), loaded.value.value.0, loaded.value.value.1);
    }

    /** The poll on what was loaded; nothing began since `start`. */
    method RunLoaded(ghost start: seq<World>, index: MonitorIndex, head: U64)
      returns (r: Result<PollOutcome>, ghost begun: Option<nat>, ghost q: Poll)
      requires Valid() && Idle() && start != [] && Quiet(chain, start, run)
      requires ValidIndex(index) && Loaded(store, chain, index.monitors) && node.finalized == Some(head)
      modifies this, cache, node`failed, node`requests
      ensures Valid() && Idle() && start <= run
      ensures begun.None? ==> Quiet(chain, start, run) && r == Ok(Cancelled)
      ensures begun.Some? ==> Began(start, begun.value, q)
      ensures begun.Some? && r.Ok? && r.value.Completed? ==> EndedAt(q) && Concluded(q, r.value)
      ensures r == Ok(Cancelled) ==> cancelled
      ensures begun.Some? && r.Err? && Sound(q.head) ==> Excused(q.active)
    {
      ghost var before := run;
      ghost var ran;
      r, ran, q := RunIndexed(index, head);
      begun := None;
      if ran {
        begun := Some(|before| - 1);
        BegunThen(start, before, head, q);
      }
    }

    lemma BegunThen(start: seq<World>, before: seq<World>, head: U64, q: Poll)
      requires start != [] && Quiet(chain, start, before) && BegunAfter(before, head, q) && node.finalized == Some(head)
      ensures start <= run && |before| >= 1 && Began(start, |before| - 1, q)
    {
      assert run[..|before|] == before;
    }

    /** Head and monitors, unless cancelled before; no poll has begun. */
    method LoadPoll() returns (r: Result<Option<(MonitorIndex, U64)>>)
      requires Valid() && Idle()
      modifies this, node
      ensures Valid() && Idle() && Quiet(chain, old(run), run)
      ensures r.Err? ==> node.failed || storageFailed
      ensures r == Ok(None) ==> cancelled
      ensures r.Ok? && r.value.Some? ==>
                var (index, head) := r.value.value;
                ValidIndex(index) && Loaded(store, chain, index.monitors) && node.finalized == Some(head)
    {
      Others();
      if cancelled {
        return Ok(None);
      }
      var head := node.FinalizedHead();
      if head.Err? {
        return Err;
      }
      ghost var middle := run;
      Others();
      QuietTrans(chain, old(run), middle, run);
      if cancelled {
        return Ok(None);
      }
      var loaded := LoadIndex();
      if loaded.Err? {
        return Err;
      }
      r := Ok(Some((loaded.value, head.value)));
    }

    /** The poll `q` began right after the worlds `start`, with this head. */
    ghost predicate BegunAfter(start: seq<World>, head: U64, q: Poll)
      reads this`run
    {
      && start != [] && start <= run && PollRan(chain, run, |start| - 1, q)
      && q.batch == batch && q.head == head && forall plan :: plan in q.plans ==> plan.block <= head
    }

    /** The poll proper: it begins where this is called. */
    method RunIndexed(index: MonitorIndex, head: U64) returns (r: Result<PollOutcome>, ghost ran: bool, ghost q: Poll)
      requires Valid() && Idle() && ValidIndex(index) && Loaded(store, chain, index.monitors)
      modifies this, cache, node`failed, node`requests
      ensures Valid() && Idle() && old(run) <= run
      ensures !ran ==> run == old(run) && r == Ok(Cancelled)
      ensures ran ==> BegunAfter(old(run), head, q) && q.active == index.monitors
      ensures ran && r.Ok? && r.value.Completed? ==> r.value.head == head && EndedAt(q) && Concluded(q, r.value)
      ensures r == Ok(Cancelled) ==> cancelled
      ensures r.Err? && Sound(head) ==> Excused(q.active)
    {
      if index.monitors == [] {
        if cancelled {
          q := Poll(0, 0, 1, [], [], 0, map[], []);
          return Ok(Cancelled), false, q;
        }
        q := RunEmpty(head);
        return Ok(Completed(head, 0)), true, q;
      }
      r, q := RunPlanned(index, head);
      ran := true;
    }

    /** Without an active monitor there is nothing to plan. */
    method RunEmpty(head: U64) returns (ghost q: Poll)
      requires Valid() && Idle() && Loaded(store, chain, [])
      modifies this`lag, this`world, this`run, cache
      ensures Valid() && Idle() && BegunAfter(old(run), head, q) && q.active == []
      ensures EndedAt(q) && Concluded(q, Completed(head, 0))
    {
      q := Begin(head, [], []);
      ghost var begun := run;
      Conclude(q, [], [], head);
      PollGoesOn(old(run), begun, q, q);
    }

    method RunPlanned(index: MonitorIndex, head: U64) returns (r: Result<PollOutcome>, ghost q: Poll)
      requires Valid() && Idle() && ValidIndex(index) && Loaded(store, chain, index.monitors)
      modifies this, cache, node`failed, node`requests
      ensures Valid() && Idle() && BegunAfter(old(run), head, q) && q.active == index.monitors
      ensures r.Ok? && r.value.Completed? ==> r.value.head == head && EndedAt(q) && Concluded(q, r.value)
      ensures r == Ok(Cancelled) ==> cancelled
      ensures r.Err? && Sound(head) ==> Excused(q.active)
    {
      var plans := PlanBlocks(index.monitors, head, batch);
      PlannedUpTo(index.monitors, head, batch, plans);
      ghost var p := Begin(head, index.monitors, plans);
      ghost var begun := run;
      SoundPoll(p);
      var done, progress, decoded;
      done, progress, decoded, q := RunPlans(p, index, plans);
      PollGoesOn(old(run), begun, p, p);
      if done.Err? {
        return Err, p;
      }
      if !done.value {
        return Ok(Cancelled), p;
      }
      BegunStill(old(run), head, p, q);
      r := FinishPlanned(old(run), q, index.monitors, progress, head, decoded);
    }

    /** The plan, window by window. */
    method RunPlans(ghost p: Poll, index: MonitorIndex, plans: seq<BlockPlan>)
      returns (r: Result<bool>, progress: seq<Option<U64>>, decoded: nat, ghost q: Poll)
      requires Valid() && At(p) && Indexed(p, index) && plans == p.plans
      requires p.done == 0 && p.ready == map[] && p.progress == Cursors(index.monitors)
      modifies this`store, this`sink, this`world, this`run, this`storageFailed, this`cancelled, cache, node`failed, node`requests
      ensures Valid()
      ensures r == Ok(false) ==> cancelled
      ensures r.Err? && Sound(p.head) ==> Excused(p.active)
      ensures r == Ok(true) ==> At(q) && Along(q, p, |p.plans|, index, progress, decoded)
      ensures r != Ok(true) ==> Idle()
      ensures Extends(chain, old(run), run, p)
    {
      var windows := PlanWindows(plans, batch);
      r, progress, decoded, q := RunWindows(p, index, windows);
    }

    /** The whole plan is committed: evicts, reports and ends the poll. */
    method FinishPlanned(ghost start: seq<World>, ghost q: Poll, active: seq<Monitor>, progress: seq<Option<U64>>, head: U64, decoded: nat)
      returns (r: Result<PollOutcome>)
      requires Valid() && At(q) && q.done == |q.plans| && q.active == active && q.progress == progress
      requires BegunAfter(start, head, q) && decoded == CountReady(q.ready, |q.plans|)
      modifies this`lag, this`world, this`run, cache
      ensures Valid() && Idle() && BegunAfter(start, head, q)
      ensures r == Ok(Completed(head, decoded)) && EndedAt(q) && Concluded(q, Completed(head, decoded))
    {
      ghost var middle := run;
      Conclude(q, active, progress, head);
      PollStays(start, middle, q, q);
      r := Ok(Completed(head, decoded));
    }

    lemma BegunStill(start: seq<World>, head: U64, p: Poll, q: Poll)
      requires BegunAfter(start, head, p) && Continues(q, p)
      ensures BegunAfter(start, head, q)
    {
    }

    lemma PollStays(start: seq<World>, middle: seq<World>, p: Poll, q: Poll)
      requires start != [] && |start| < |middle| && start <= middle && PollRan(chain, middle, |start| - 1, p)
      requires Extends(chain, middle, run, q) && Continues(q, p)
      ensures start <= run && PollRan(chain, run, |start| - 1, q)
    {
      forall k | |start| - 1 < k < |run| && chain in run[k].polls
        ensures Continues(run[k].polls[chain], q)
      {
        if k < |middle| {
          assert middle[k] == run[k];
        }
      }
      assert middle[|start| - 1] == run[|start| - 1] && middle[|start|] == run[|start|];
    }

    lemma SoundPoll(p: Poll)
      requires Valid() && At(p)
      ensures PollShape(net, chain, p)
    {
      Here();
      ReachableOk(net, world);
      assert PollOk(net, world, chain, p);
    }

    lemma PollGoesOn(start: seq<World>, begun: seq<World>, p: Poll, q: Poll)
      requires start != [] && |begun| == |start| + 1 && start <= begun && PollRan(chain, begun, |start| - 1, p)
      requires Extends(chain, begun, run, p) && Continues(q, p)
      ensures start <= run && PollRan(chain, run, |start| - 1, q)
    {
      forall k | |start| - 1 < k < |run| && chain in run[k].polls
        ensures Continues(run[k].polls[chain], q)
      {
        if k < |begun| {
          assert begun[k] == run[k];
        }
      }
      assert begun[|start| - 1] == run[|start| - 1] && begun[|start|] == run[|start|];
    }

    /** Whatever was polled, each stored monitor has exactly the direct scan of its committed range. */
    lemma StoredExactlyOnce(id: nat)
      requires Valid() && id in store.monitors
      ensures id in store.tables && ExactlyOnce(net, store.monitors[id], store.tables[id])
    {
      Here();
      ExactlyOnceAlways(net, world, id);
    }
  }
}
