/** What consumers of committed batches may rely on, over every run: each batch belongs to a commit that
    was applied, batches come in block order per poll and per monitor, no stored row is delivered twice,
    and none is missed unless a commit was reported as an error. */
module SinkProofs {
  import opened Domain
  import opened Results
  import opened Storage
  import opened Protocol
  import opened ProtocolProofs

  /** The rows delivered for one monitor, in delivery order. */
  function SunkRows(sink: seq<Batch>, id: nat): seq<Row> {
    if sink == [] then []
    else SunkRows(sink[..|sink| - 1], id) + RowsOf(Select(sink[|sink| - 1].results, id))
  }

  // ---- Invariants ----

  /** A batch names known monitors only, and all its results are theirs. */
  ghost predicate KnownBatch(batch: Batch, nextId: nat, nextPoll: nat) {
    && batch.poll < nextPoll
    && (forall id :: id in batch.Monitors() ==> id < nextId)
    && (forall x :: x in batch.results ==> x.monitor in batch.Monitors())
  }

  ghost predicate AllKnown(sink: seq<Batch>, nextId: nat, nextPoll: nat) {
    forall batch :: batch in sink ==> KnownBatch(batch, nextId, nextPoll)
  }

  /** The cursor of `id` has reached the block. */
  predicate Passed(store: Store, id: nat, block: U64) {
    id in store.monitors && store.monitors[id].cursor.Some? && block <= store.monitors[id].cursor.value
  }

  ghost predicate Behind(store: Store, sink: seq<Batch>) {
    forall batch, id :: batch in sink && id in batch.Monitors() && id in store.monitors ==> Passed(store, id, batch.block)
  }

  ghost predicate Related(a: Batch, b: Batch) {
    a.poll == b.poll || exists id :: id in a.Monitors() && id in b.Monitors()
  }

  /** Within a poll, and for each monitor across polls, blocks strictly ascend. */
  ghost predicate InOrder(sink: seq<Batch>) {
    forall i, j :: 0 <= i < j < |sink| && Related(sink[i], sink[j]) ==> sink[i].block < sink[j].block
  }

  ghost predicate BehindPoll(sink: seq<Batch>, p: Poll) {
    forall batch :: batch in sink && batch.poll == p.number ==>
      0 < p.done <= |p.plans| && batch.block <= p.plans[p.done - 1].block
  }

  ghost predicate BehindPolls(w: World) {
    forall chain :: chain in w.polls ==> BehindPoll(w.sink, w.polls[chain])
  }

  ghost predicate SinkOk(w: World) {
    && AllKnown(w.sink, w.nextId, w.nextPoll)
    && Behind(w.store, w.sink)
    && InOrder(w.sink)
    && BehindPolls(w)
  }

  /** Nothing is delivered for a stored monitor that its table does not hold, or twice. */
  ghost predicate Delivered(store: Store, sink: seq<Batch>) {
    forall id :: id in store.monitors ==> multiset(SunkRows(sink, id)) <= multiset(Table(store, id))
  }

  /** Everything stored is delivered, in the stored order. */
  ghost predicate Complete(store: Store, sink: seq<Batch>) {
    forall id :: id in store.monitors ==> SunkRows(sink, id) == Table(store, id)
  }

  // ---- One commit ----

  /** A listed monitor's cursor was right behind the committed block. */
  lemma CommitIsAhead(net: Network, w: World, chain: nat, id: nat)
    requires PollsOk(net, w) && chain in w.polls && CanCommit(w.polls[chain])
    requires Acceptable(w.store, CommitOf(chain, w.polls[chain]))
    requires id in Ids(CommitOf(chain, w.polls[chain]).monitors)
    ensures id in w.store.monitors && id < w.nextId
    ensures w.store.monitors[id].cursor.Some? ==> w.store.monitors[id].cursor.value < CommitOf(chain, w.polls[chain]).block
  {
    var p := w.polls[chain];
    assert PollOk(net, w, chain, p);
    assert id in Locked(w.store, CommitOf(chain, p));
    var j := CommitIdsAreLoaded(chain, p, id);
    assert p.active[j] in p.active;
    NextPlanFollows(p.active, p.head, p.batch, p.plans, p.done, j);
    assert Agrees(w.store.monitors[id], p.active[j], p.progress[j]);
  }

  /** An applied commit always encodes: the batch is submitted unless it is empty. */
  lemma AppliedEncodes(net: Network, w: World, chain: nat)
    requires PollsOk(net, w) && chain in w.polls && CanCommit(w.polls[chain])
    requires Acceptable(w.store, CommitOf(chain, w.polls[chain]))
    ensures Encodable(CommitOf(chain, w.polls[chain]))
  {
    var p := w.polls[chain];
    var commit := CommitOf(chain, p);
    assert PollOk(net, w, chain, p);
    forall x | x in commit.results
      ensures Encodes(x, commit.monitors)
    {
      var locked := Locked(w.store, commit);
      assert ResultFits(x, locked) && x.monitor in Ids(commit.monitors);
      var k :| 0 <= k < |commit.monitors| && commit.monitors[k].id == x.monitor;
      var j := p.plans[p.done].indices[k];
      assert j in p.plans[p.done].indices && commit.monitors[k] == p.active[j];
      assert Agrees(w.store.monitors[x.monitor], p.active[j], p.progress[j]);
      assert EncodesFor(x, commit.monitors[k]);
    }
  }

  function BatchOf(chain: nat, p: Poll): Batch
    requires CanCommit(p)
  {
    var commit := CommitOf(chain, p);
    Batch(chain, commit.block, p.number, commit.monitors, commit.results)
  }

  lemma NewBatchKnown(net: Network, w: World, chain: nat)
    requires PollsOk(net, w) && chain in w.polls && CanCommit(w.polls[chain])
    requires Acceptable(w.store, CommitOf(chain, w.polls[chain]))
    ensures KnownBatch(BatchOf(chain, w.polls[chain]), w.nextId, w.nextPoll)
  {
    var p := w.polls[chain];
    var commit := CommitOf(chain, p);
    assert PollOk(net, w, chain, p);
    forall id | id in Ids(commit.monitors)
      ensures id < w.nextId
    {
      CommitIsAhead(net, w, chain, id);
    }
    forall x | x in commit.results
      ensures x.monitor in Ids(commit.monitors)
    {
      assert ResultFits(x, Locked(w.store, commit));
    }
  }

  lemma NewBatchInOrder(net: Network, w: World, chain: nat, batch: Batch)
    requires PollsOk(net, w) && Behind(w.store, w.sink) && BehindPolls(w) && chain in w.polls && CanCommit(w.polls[chain])
    requires Acceptable(w.store, CommitOf(chain, w.polls[chain]))
    requires batch in w.sink && Related(batch, BatchOf(chain, w.polls[chain]))
    ensures batch.block < BatchOf(chain, w.polls[chain]).block
  {
    var p := w.polls[chain];
    if batch.poll == p.number {
      LaterInPoll(net, w, chain, batch);
    } else {
      var id :| id in batch.Monitors() && id in BatchOf(chain, p).Monitors();
      CommitIsAhead(net, w, chain, id);
      assert Passed(w.store, id, batch.block);
    }
  }

  lemma LaterInPoll(net: Network, w: World, chain: nat, batch: Batch)
    requires chain in w.polls && PollShape(net, chain, w.polls[chain]) && BehindPolls(w) && CanCommit(w.polls[chain])
    requires batch in w.sink && batch.poll == w.polls[chain].number
    ensures batch.block < w.polls[chain].plans[w.polls[chain].done].block
  {
  }

  lemma CommitKeepsBehind(net: Network, w: World, chain: nat)
    requires PollsOk(net, w) && SinkOk(w) && chain in w.polls && CanCommit(w.polls[chain])
    requires Acceptable(w.store, CommitOf(chain, w.polls[chain]))
    ensures Behind(Committed(w.store, CommitOf(chain, w.polls[chain])), w.sink + [BatchOf(chain, w.polls[chain])])
  {
    var commit := CommitOf(chain, w.polls[chain]);
    var next := Committed(w.store, commit);
    forall batch, id | batch in w.sink + [BatchOf(chain, w.polls[chain])] && id in batch.Monitors() && id in next.monitors
      ensures Passed(next, id, batch.block)
    {
      if batch in w.sink {
        assert Passed(w.store, id, batch.block);
        if id in Ids(commit.monitors) {
          CommitIsAhead(net, w, chain, id);
        }
      }
    }
  }

  lemma AppendInOrder(sink: seq<Batch>, next: Batch)
    requires InOrder(sink)
    requires forall batch :: batch in sink && Related(batch, next) ==> batch.block < next.block
    ensures InOrder(sink + [next])
  {
  }

  lemma FewerBatches(store: Store, sink: seq<Batch>, more: Batch)
    requires Behind(store, sink + [more])
    ensures Behind(store, sink)
  {
  }

  lemma AcceptedSubmits(net: Network, w: World, chain: nat)
    requires PollsOk(net, w) && chain in w.polls && CanCommit(w.polls[chain])
    requires Acceptable(w.store, CommitOf(chain, w.polls[chain]))
    ensures var p := w.polls[chain];
            Submitted(w.sink, p.number, CommitOf(chain, p)) ==
            if p.ready[p.done] == [] then w.sink else w.sink + [BatchOf(chain, p)]
  {
    AppliedEncodes(net, w, chain);
  }

  lemma AdvancedBehindPoll(sink: seq<Batch>, p: Poll, next: Batch)
    requires BehindPoll(sink, p) && AscendingPlans(p.plans) && CanCommit(p) && next.block == p.plans[p.done].block
    ensures BehindPoll(sink + [next], Advanced(p)) && BehindPoll(sink, Advanced(p))
  {
  }

  lemma CommitKeepsPollOrder(net: Network, w: World, step: Step, w': World)
    requires PollsOk(net, w) && BehindPolls(w) && step.CommitNext? && step.reply.Accepted? && Next(net, w, step, w')
    ensures BehindPolls(w')
  {
    var p := w.polls[step.chain];
    AcceptedSubmits(net, w, step.chain);
    AdvancedBehindPoll(w.sink, p, BatchOf(step.chain, p));
    forall chain | chain in w'.polls && chain != step.chain
      ensures BehindPoll(w'.sink, w'.polls[chain])
    {
      assert BehindPoll(w.sink, w.polls[chain]);
      assert w.polls[chain].number != p.number;
    }
  }

  lemma CommitKeepsSink(net: Network, w: World, step: Step, w': World)
    requires PollsOk(net, w) && SinkOk(w) && step.CommitNext? && !step.reply.Refused? && Next(net, w, step, w')
    ensures SinkOk(w')
  {
    var next := BatchOf(step.chain, w.polls[step.chain]);
    CommitKeepsBehind(net, w, step.chain);
    FewerBatches(w'.store, w.sink, next);
    assert step.reply.Lost? ==> forall chain :: chain in w'.polls ==> BehindPoll(w.sink, w.polls[chain]);
    if step.reply.Accepted? {
      CommitKeepsPollOrder(net, w, step, w');
      AcceptedSubmits(net, w, step.chain);
      NewBatchKnown(net, w, step.chain);
      forall batch | batch in w.sink && Related(batch, next)
        ensures batch.block < next.block
      {
        NewBatchInOrder(net, w, step.chain, batch);
      }
      AppendInOrder(w.sink, next);
    }
  }

  lemma QuietStepKeepsBehind(net: Network, w: World, step: Step, w': World)
    requires StoreOk(net, w.store, w.nextId) && AllKnown(w.sink, w.nextId, w.nextPoll) && Behind(w.store, w.sink)
    requires Next(net, w, step, w') && (step.CommitNext? ==> step.reply.Refused?)
    ensures Behind(w'.store, w'.sink)
  {
    forall batch, id | batch in w'.sink && id in batch.Monitors() && id in w'.store.monitors
      ensures Passed(w'.store, id, batch.block)
    {
      assert KnownBatch(batch, w.nextId, w.nextPoll);
      assert Passed(w.store, id, batch.block);
    }
  }

  lemma QuietStepKeepsPollOrder(net: Network, w: World, step: Step, w': World)
    requires AllKnown(w.sink, w.nextId, w.nextPoll) && BehindPolls(w)
    requires Next(net, w, step, w') && (step.CommitNext? ==> step.reply.Refused?)
    ensures BehindPolls(w')
  {
    forall chain | chain in w'.polls
      ensures BehindPoll(w'.sink, w'.polls[chain])
    {
      if chain in w.polls {
        assert BehindPoll(w.sink, w.polls[chain]);
      }
    }
  }

  lemma QuietStepKeepsSink(net: Network, w: World, step: Step, w': World)
    requires StoreOk(net, w.store, w.nextId) && PollsOk(net, w) && SinkOk(w) && Next(net, w, step, w')
    requires step.CommitNext? ==> step.reply.Refused?
    ensures SinkOk(w')
  {
    forall batch | batch in w.sink
      ensures KnownBatch(batch, w'.nextId, w'.nextPoll)
    {
      assert KnownBatch(batch, w.nextId, w.nextPoll);
    }
    QuietStepKeepsBehind(net, w, step, w');
    QuietStepKeepsPollOrder(net, w, step, w');
  }

  // ---- Delivery ----

  lemma {:induction false} SunkNothing(sink: seq<Batch>, id: nat)
    requires forall batch :: batch in sink ==> id !in batch.Monitors() && forall x :: x in batch.results ==> x.monitor in batch.Monitors()
    ensures SunkRows(sink, id) == []
  {
    if sink == [] {
    } else {
      SunkNothing(sink[..|sink| - 1], id);
      var last := sink[|sink| - 1];
      assert last in sink;
      SelectNone(last.results, id);
    }
  }

  lemma SunkMore(sink: seq<Batch>, next: Batch, id: nat)
    ensures SunkRows(sink + [next], id) == SunkRows(sink, id) + RowsOf(Select(next.results, id))
  {
  }

  lemma CommitAppends(store: Store, commit: BlockCommit, id: nat)
    requires Acceptable(store, commit) && store.tables.Keys == store.monitors.Keys && id in store.monitors
    ensures Table(Committed(store, commit), id) == Table(store, id) + RowsOf(Select(commit.results, id))
  {
    if id !in Ids(commit.monitors) {
      forall x | x in commit.results
        ensures x.monitor != id
      {
        assert ResultFits(x, Locked(store, commit));
      }
      SelectNone(commit.results, id);
    }
  }

  /** One applied commit appends the same rows to table and sink, or, when lost, only to the table. */
  lemma CommitDelivers(net: Network, w: World, step: Step, w': World, id: nat)
    requires w.store.tables.Keys == w.store.monitors.Keys && PollsOk(net, w)
    requires step.CommitNext? && !step.reply.Refused? && Next(net, w, step, w') && id in w.store.monitors
    ensures var rows := RowsOf(Select(CommitOf(step.chain, w.polls[step.chain]).results, id));
            && Table(w'.store, id) == Table(w.store, id) + rows
            && SunkRows(w'.sink, id) == SunkRows(w.sink, id) + if step.reply.Accepted? then rows else []
  {
    var p := w.polls[step.chain];
    CommitAppends(w.store, CommitOf(step.chain, p), id);
    if step.reply.Accepted? {
      AcceptedSubmits(net, w, step.chain);
      SunkMore(w.sink, BatchOf(step.chain, p), id);
    }
  }

  lemma StepDelivers(net: Network, w: World, step: Step, w': World)
    requires StoreOk(net, w.store, w.nextId) && PollsOk(net, w) && SinkOk(w) && Next(net, w, step, w')
    ensures Delivered(w.store, w.sink) ==> Delivered(w'.store, w'.sink)
    ensures Complete(w.store, w.sink) && !(step.CommitNext? && step.reply.Lost?) ==> Complete(w'.store, w'.sink)
  {
    forall id | id in w'.store.monitors
      ensures id in w.store.monitors && multiset(SunkRows(w.sink, id)) <= multiset(Table(w.store, id)) ==>
                multiset(SunkRows(w'.sink, id)) <= multiset(Table(w'.store, id))
      ensures id in w.store.monitors && SunkRows(w.sink, id) == Table(w.store, id) && !(step.CommitNext? && step.reply.Lost?) ==>
                SunkRows(w'.sink, id) == Table(w'.store, id)
      ensures id !in w.store.monitors ==> SunkRows(w'.sink, id) == Table(w'.store, id) == []
    {
      if step.CommitNext? && !step.reply.Refused? {
        CommitDelivers(net, w, step, w', id);
      } else if id !in w.store.monitors {
        forall batch | batch in w.sink
          ensures id !in batch.Monitors() && forall x :: x in batch.results ==> x.monitor in batch.Monitors()
        {
          assert KnownBatch(batch, w.nextId, w.nextPoll);
        }
        SunkNothing(w.sink, id);
      }
    }
  }

  // ---- Every run ----

  lemma StepKeepsSink(net: Network, w: World, step: Step, w': World)
    requires StoreOk(net, w.store, w.nextId) && PollsOk(net, w) && SinkOk(w) && Next(net, w, step, w')
    ensures SinkOk(w')
  {
    if step.CommitNext? && !step.reply.Refused? {
      CommitKeepsSink(net, w, step, w');
    } else {
      QuietStepKeepsSink(net, w, step, w');
    }
  }

  lemma {:induction false} RunKeepsSink(net: Network, run: seq<World>)
    requires IsRun(net, run)
    ensures SinkOk(run[|run| - 1]) && Delivered(run[|run| - 1].store, run[|run| - 1].sink)
    decreases |run|
  {
    if |run| == 1 {
    } else {
      var before := run[..|run| - 1];
      assert IsRun(net, before);
      RunKeepsSink(net, before);
      RunKeepsWorld(net, before);
      assert Linked(net, run[|run| - 2], run[|run| - 1]);
      var step :| Next(net, run[|run| - 2], step, run[|run| - 1]);
      StepKeepsSink(net, run[|run| - 2], step, run[|run| - 1]);
      StepDelivers(net, run[|run| - 2], step, run[|run| - 1]);
    }
  }

  /** Batches of one poll, and all batches naming one monitor, come in strictly ascending block order:
      each monitor gets each block at most once over all polls. */
  lemma SinkInOrder(net: Network, w: World, i: nat, j: nat)
    requires Reachable(net, w) && i < j < |w.sink|
    requires w.sink[i].poll == w.sink[j].poll || w.sink[i].Monitors() * w.sink[j].Monitors() != {}
    ensures w.sink[i].block < w.sink[j].block
  {
    var run :| IsRun(net, run) && run[|run| - 1] == w;
    RunKeepsSink(net, run);
    if w.sink[i].poll != w.sink[j].poll {
      var id :| id in w.sink[i].Monitors() * w.sink[j].Monitors();
      assert id in w.sink[i].Monitors() && id in w.sink[j].Monitors();
    }
    assert Related(w.sink[i], w.sink[j]);
  }

  /** A block may be delivered again in a later poll, exactly to monitors that did not have it yet. */
  lemma SameBlockTwice(net: Network, w: World, i: nat, j: nat)
    requires Reachable(net, w) && i < j < |w.sink| && w.sink[i].block == w.sink[j].block
    ensures w.sink[i].poll != w.sink[j].poll && w.sink[i].Monitors() * w.sink[j].Monitors() == {}
  {
    if w.sink[i].poll == w.sink[j].poll || w.sink[i].Monitors() * w.sink[j].Monitors() != {} {
      SinkInOrder(net, w, i, j);
    }
  }

  /** Every delivered row of a stored monitor is in its table, and none is delivered twice. */
  lemma DeliveredOnce(net: Network, w: World, id: nat)
    requires Reachable(net, w) && id in w.store.monitors
    ensures multiset(SunkRows(w.sink, id)) <= multiset(Table(w.store, id))
    ensures UniqueRows(Table(w.store, id))
  {
    var run :| IsRun(net, run) && run[|run| - 1] == w;
    RunKeepsSink(net, run);
    ExactlyOnceAlways(net, w, id);
  }

  /** A run in which no applied commit was reported as an error. */
  ghost predicate IsFaithfulRun(net: Network, run: seq<World>) {
    && run != [] && Init(run[0])
    && forall i :: 0 <= i < |run| - 1 ==> FaithfullyLinked(net, run[i], run[i + 1])
  }

  ghost predicate FaithfullyLinked(net: Network, w: World, w': World) {
    exists step :: Next(net, w, step, w') && !(step.CommitNext? && step.reply.Lost?)
  }

  lemma FaithfulIsRun(net: Network, run: seq<World>)
    requires IsFaithfulRun(net, run)
    ensures IsRun(net, run)
  {
    forall i | 0 <= i < |run| - 1
      ensures Linked(net, run[i], run[i + 1])
    {
      assert FaithfullyLinked(net, run[i], run[i + 1]);
      var step :| Next(net, run[i], step, run[i + 1]) && !(step.CommitNext? && step.reply.Lost?);
    }
  }

  /** As long as no applied commit is reported as an error, the sink holds every monitor's whole table,
      in the stored order. */
  lemma {:induction false} FaithfulRunDelivers(net: Network, run: seq<World>)
    requires IsFaithfulRun(net, run)
    ensures Complete(run[|run| - 1].store, run[|run| - 1].sink)
    decreases |run|
  {
    if |run| == 1 {
    } else {
      var before := run[..|run| - 1];
      assert IsFaithfulRun(net, before);
      FaithfulRunDelivers(net, before);
      FaithfulIsRun(net, before);
      RunKeepsSink(net, before);
      RunKeepsWorld(net, before);
      assert FaithfullyLinked(net, run[|run| - 2], run[|run| - 1]);
      var step :| Next(net, run[|run| - 2], step, run[|run| - 1]) && !(step.CommitNext? && step.reply.Lost?);
      StepDelivers(net, run[|run| - 2], step, run[|run| - 1]);
    }
  }
}
