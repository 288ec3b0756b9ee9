/** Exactly when a block is handed to the sink again, told before the poll that would do it starts. */
module SinkRepeats {
  import opened Domain
  import opened Results
  import opened Preparer
  import opened Scheduler
  import opened Storage
  import opened Protocol
  import opened ProtocolProofs
  import opened CommitProgress
  import opened SinkProofs
  import opened SinkWitness

  // ---- One commit ----

  /** The block yields something for the `j`-th loaded monitor. */
  ghost predicate Yields(net: Network, chain: nat, active: seq<Monitor>, j: nat, block: U64)
    requires j < |active|
  {
    ScanBlock(net.d, net.source(chain), active[j], block) != []
  }

  /** The block yields something for a monitor the plan lists. */
  ghost predicate PlanYields(net: Network, chain: nat, active: seq<Monitor>, plan: BlockPlan) {
    exists j: nat :: j < |active| && j in plan.indices && Yields(net, chain, active, j, plan.block)
  }

  /** What was prepared is empty exactly if the block yields nothing for any planned monitor. */
  lemma ReadyYields(net: Network, chain: nat, p: Poll)
    requires PollShape(net, chain, p) && CanCommit(p)
    ensures p.ready[p.done] != [] <==> PlanYields(net, chain, p.active, p.plans[p.done])
  {
    var results, block := p.ready[p.done], p.plans[p.done].block;
    if results != [] {
      var x := results[0];
      var j := PreparedOf(net, chain, p, x);
      SelectMember(results, p.active[j].id, x);
      assert x in multiset(Select(results, p.active[j].id));
      assert Yields(net, chain, p.active, j, block);
    }
    if PlanYields(net, chain, p.active, p.plans[p.done]) {
      var j: nat :| j < |p.active| && j in p.plans[p.done].indices && Yields(net, chain, p.active, j, block);
      PlannedNeedsBlock(p.active, p.head, p.batch, p.plans, p.done, j);
      var scan := ScanBlock(net.d, net.source(chain), p.active[j], block);
      assert scan[0] in multiset(scan);
      assert scan[0] in Select(results, p.active[j].id);
      SelectMember(results, p.active[j].id, scan[0]);
    }
  }

  /** An acknowledged commit hands over its batch exactly if the block yields something for a planned
      monitor, and nothing else. */
  lemma CommitSubmitsExactly(net: Network, w: World, chain: nat, w': World)
    requires PollsOk(net, w) && Next(net, w, CommitNext(chain, Accepted), w')
    ensures chain in w.polls && CanCommit(w.polls[chain])
    ensures w'.polls == w.polls[chain := Advanced(w.polls[chain])]
    ensures var p := w.polls[chain];
            w'.sink == if PlanYields(net, chain, p.active, p.plans[p.done]) then w.sink + [BatchOf(chain, p)] else w.sink
  {
    assert PollOk(net, w, chain, w.polls[chain]);
    AcceptedSubmits(net, w, chain);
    ReadyYields(net, chain, w.polls[chain]);
  }

  // ---- One poll ----

  /** Nothing stops the chain's poll: every commit of it is acknowledged. Other chains and the monitors
      may do anything. */
  ghost predicate Undisturbed(net: Network, chain: nat, w: World, w': World) {
    exists step :: Next(net, w, step, w') && LetsGoOn(step, chain)
  }

  predicate LetsGoOn(step: Step, chain: nat) {
    step != StopPoll(chain) && (step.CommitNext? && step.chain == chain ==> step.reply.Accepted?)
  }

  /** A run that begins with the start of a poll and throughout which that poll goes on. */
  ghost predicate IsPollRun(net: Network, run: seq<World>, start: Step) {
    && start.StartPoll?
    && |run| >= 2 && Reachable(net, run[0]) && Next(net, run[0], start, run[1])
    && forall i :: 1 <= i < |run| - 1 ==> Undisturbed(net, start.chain, run[i], run[i + 1])
  }

  ghost predicate DeliveredSince(before: seq<Batch>, sink: seq<Batch>, chain: nat, block: U64) {
    exists k :: |before| <= k < |sink| && sink[k].chain == chain && sink[k].block == block
  }

  /** The block is among the first `done` of the plan, and yields something. */
  ghost predicate YieldedBy(net: Network, start: Step, done: nat, block: U64)
    requires start.StartPoll? && done <= |start.plans|
  {
    exists k: nat :: k < done && start.plans[k].block == block && PlanYields(net, start.chain, start.active, start.plans[k])
  }

  ghost predicate Same(p: Poll, start: Step)
    requires start.StartPoll?
  {
    p.head == start.head && p.batch == start.batch && p.active == start.active && p.plans == start.plans
  }

  ghost predicate Own(before: seq<Batch>, sink: seq<Batch>, chain: nat, number: nat) {
    before <= sink && forall k :: |before| <= k < |sink| && sink[k].chain == chain ==> sink[k].poll == number
  }

  ghost predicate Tracked(net: Network, start: Step, before: seq<Batch>, sink: seq<Batch>, done: nat)
    requires start.StartPoll? && done <= |start.plans|
  {
    forall block: U64 :: DeliveredSince(before, sink, start.chain, block) <==> YieldedBy(net, start, done, block)
  }

  /** The batches of the chain since the poll started are all its own, and precisely of the committed
      blocks that yield something. */
  ghost predicate Underway(net: Network, start: Step, before: seq<Batch>, number: nat, w: World) {
    && start.StartPoll?
    && start.chain in w.polls && Same(w.polls[start.chain], start) && w.polls[start.chain].number == number
    && w.polls[start.chain].done <= |start.plans|
    && Own(before, w.sink, start.chain, number)
    && Tracked(net, start, before, w.sink, w.polls[start.chain].done)
  }

  lemma OneMoreDelivered(before: seq<Batch>, sink: seq<Batch>, next: Batch, chain: nat, block: U64)
    requires before <= sink
    ensures DeliveredSince(before, sink + [next], chain, block) <==>
            DeliveredSince(before, sink, chain, block) || (next.chain == chain && next.block == block)
  {
    if DeliveredSince(before, sink, chain, block) {
      var k :| |before| <= k < |sink| && sink[k].chain == chain && sink[k].block == block;
      assert (sink + [next])[k] == sink[k];
    }
    assert (sink + [next])[|sink|] == next;
  }

  lemma OneMoreYielded(net: Network, start: Step, done: nat, block: U64)
    requires start.StartPoll? && done < |start.plans|
    ensures YieldedBy(net, start, done + 1, block) <==>
            || YieldedBy(net, start, done, block)
            || (start.plans[done].block == block && PlanYields(net, start.chain, start.active, start.plans[done]))
  {
  }

  lemma CommitKeepsTracked(net: Network, start: Step, before: seq<Batch>, sink: seq<Batch>, done: nat, next: Batch, after: seq<Batch>)
    requires start.StartPoll? && done < |start.plans| && before <= sink && Tracked(net, start, before, sink, done)
    requires next.chain == start.chain && next.block == start.plans[done].block
    requires after == if PlanYields(net, start.chain, start.active, start.plans[done]) then sink + [next] else sink
    ensures Tracked(net, start, before, after, done + 1)
  {
    forall block: U64
      ensures DeliveredSince(before, after, start.chain, block) <==> YieldedBy(net, start, done + 1, block)
    {
      OneMoreDelivered(before, sink, next, start.chain, block);
      OneMoreYielded(net, start, done, block);
    }
  }

  lemma OneMoreUnderway(net: Network, start: Step, before: seq<Batch>, number: nat, w: World, w': World)
    requires Underway(net, start, before, number, w) && CanCommit(w.polls[start.chain])
    requires w'.polls == w.polls[start.chain := Advanced(w.polls[start.chain])]
    requires var p := w.polls[start.chain];
             w'.sink == if PlanYields(net, start.chain, p.active, p.plans[p.done]) then w.sink + [BatchOf(start.chain, p)] else w.sink
    ensures Underway(net, start, before, number, w')
  {
    var p := w.polls[start.chain];
    CommitKeepsTracked(net, start, before, w.sink, p.done, BatchOf(start.chain, p), w'.sink);
  }

  lemma CommitKeepsUnderway(net: Network, start: Step, before: seq<Batch>, number: nat, w: World, w': World)
    requires PollsOk(net, w) && Underway(net, start, before, number, w)
    requires Next(net, w, CommitNext(start.chain, Accepted), w')
    ensures Underway(net, start, before, number, w')
  {
    CommitSubmitsExactly(net, w, start.chain, w');
    OneMoreUnderway(net, start, before, number, w, w');
  }

  lemma OthersKeepTracked(net: Network, start: Step, before: seq<Batch>, sink: seq<Batch>, done: nat, next: Batch)
    requires start.StartPoll? && done <= |start.plans| && before <= sink && Tracked(net, start, before, sink, done)
    requires next.chain != start.chain
    ensures Tracked(net, start, before, sink + [next], done)
  {
    forall block: U64
      ensures DeliveredSince(before, sink + [next], start.chain, block) <==> YieldedBy(net, start, done, block)
    {
      OneMoreDelivered(before, sink, next, start.chain, block);
    }
  }

  lemma OtherStepKeepsUnderway(net: Network, start: Step, before: seq<Batch>, number: nat, w: World, step: Step, w': World)
    requires PollsOk(net, w) && Underway(net, start, before, number, w)
    requires Next(net, w, step, w') && LetsGoOn(step, start.chain) && !(step.CommitNext? && step.chain == start.chain)
    ensures Underway(net, start, before, number, w')
  {
    if step.CommitNext? && step.reply.Accepted? {
      AcceptedSubmits(net, w, step.chain);
      OthersKeepTracked(net, start, before, w.sink, w.polls[start.chain].done, BatchOf(step.chain, w.polls[step.chain]));
    }
  }

  lemma {:induction false} PollRunUnderway(net: Network, run: seq<World>, start: Step)
    requires IsPollRun(net, run, start)
    ensures Reachable(net, run[|run| - 1]) && Underway(net, start, run[0].sink, run[0].nextPoll, run[|run| - 1])
    decreases |run|
  {
    if |run| == 2 {
      ReachableStep(net, run[0], start, run[1]);
    } else {
      var before, w, w' := run[..|run| - 1], run[|run| - 2], run[|run| - 1];
      assert IsPollRun(net, before, start);
      PollRunUnderway(net, before, start);
      ReachableOk(net, w);
      assert Undisturbed(net, start.chain, w, w');
      var step :| Next(net, w, step, w') && LetsGoOn(step, start.chain);
      ReachableStep(net, w, step, w');
      if step.CommitNext? && step.chain == start.chain {
        CommitKeepsUnderway(net, start, run[0].sink, run[0].nextPoll, w, w');
      } else {
        OtherStepKeepsUnderway(net, start, run[0].sink, run[0].nextPoll, w, step, w');
      }
    }
  }

  /** However far the poll is, the blocks of its chain handed over since it started are exactly the
      committed ones that yield something for a planned monitor. */
  lemma PollDelivers(net: Network, run: seq<World>, start: Step, block: U64)
    requires IsPollRun(net, run, start)
    ensures start.chain in run[|run| - 1].polls && run[|run| - 1].polls[start.chain].done <= |start.plans|
    ensures DeliveredSince(run[0].sink, run[|run| - 1].sink, start.chain, block) <==>
            YieldedBy(net, start, run[|run| - 1].polls[start.chain].done, block)
  {
    PollRunUnderway(net, run, start);
  }

  // ---- Again ----

  /** A batch handed over since then repeats the block of an earlier batch of the chain. */
  ghost predicate DeliveredAgain(before: seq<Batch>, sink: seq<Batch>, chain: nat) {
    exists i, k :: 0 <= i < k < |sink| && |before| <= k && Repeats(sink, i, k, chain)
  }

  predicate Repeats(sink: seq<Batch>, i: nat, k: nat, chain: nat)
    requires i < |sink| && k < |sink|
  {
    sink[i].chain == chain && sink[k].chain == chain && sink[i].block == sink[k].block
  }

  /** A delivered block of the chain lies in the share of the `j`-th monitor about to be polled. */
  predicate Overlaps(sink: seq<Batch>, start: Step, i: nat, j: nat)
    requires start.StartPoll? && start.batch >= 1 && i < |sink| && j < |start.active|
  {
    sink[i].chain == start.chain && InShare(start.active[j], start.head, start.batch, sink[i].block)
  }

  /** What a caller can see before the poll starts: a delivered block lies in some monitor's share. */
  predicate MayRepeat(sink: seq<Batch>, start: Step)
    requires start.StartPoll? && start.batch >= 1
  {
    exists i: nat, j: nat :: i < |sink| && j < |start.active| && Overlaps(sink, start, i, j)
  }

  /** The same, for a monitor that finds something in the block. */
  ghost predicate WillRepeat(net: Network, sink: seq<Batch>, start: Step)
    requires start.StartPoll? && start.batch >= 1
  {
    exists i: nat, j: nat :: i < |sink| && j < |start.active| && Overlaps(sink, start, i, j) &&
                             Yields(net, start.chain, start.active, j, sink[i].block)
  }

  /** A repeated batch is of an earlier poll, and repeats a committed block that yields something. */
  lemma RepeatIsYielded(net: Network, run: seq<World>, start: Step)
    requires IsPollRun(net, run, start)
    ensures var w := run[|run| - 1];
            && start.chain in w.polls && w.polls[start.chain].done <= |start.plans|
            && (DeliveredAgain(run[0].sink, w.sink, start.chain) <==>
                exists i: nat :: i < |run[0].sink| && run[0].sink[i].chain == start.chain &&
                                 YieldedBy(net, start, w.polls[start.chain].done, run[0].sink[i].block))
  {
    var before, w := run[0].sink, run[|run| - 1];
    PollRunUnderway(net, run, start);
    var done := w.polls[start.chain].done;
    if DeliveredAgain(before, w.sink, start.chain) {
      var i, k :| 0 <= i < k < |w.sink| && |before| <= k && Repeats(w.sink, i, k, start.chain);
      if i >= |before| {
        SinkInOrder(net, w, i, k);
      }
      assert before[i] == w.sink[i];
      assert DeliveredSince(before, w.sink, start.chain, before[i].block);
    }
    if i: nat :| i < |before| && before[i].chain == start.chain && YieldedBy(net, start, done, before[i].block) {
      assert DeliveredSince(before, w.sink, start.chain, before[i].block);
      var k :| |before| <= k < |w.sink| && w.sink[k].chain == start.chain && w.sink[k].block == before[i].block;
      assert before[i] == w.sink[i];
      assert Repeats(w.sink, i, k, start.chain);
    }
  }

  /** A yielding block of the plan lies in the share of a monitor that finds something, and back. */
  lemma YieldedIsShared(net: Network, start: Step, block: U64)
    requires start.StartPoll? && start.batch >= 1 && IsPlan(start.active, start.head, start.batch, start.plans)
    ensures YieldedBy(net, start, |start.plans|, block) <==>
            exists j: nat :: j < |start.active| && InShare(start.active[j], start.head, start.batch, block) &&
                             Yields(net, start.chain, start.active, j, block)
  {
    var active, plans := start.active, start.plans;
    if YieldedBy(net, start, |plans|, block) {
      var k: nat :| k < |plans| && plans[k].block == block && PlanYields(net, start.chain, active, plans[k]);
      assert PlanOf(active, start.head, start.batch, plans[k]);
    }
    if j: nat :| j < |active| && InShare(active[j], start.head, start.batch, block) && Yields(net, start.chain, active, j, block) {
      assert HasBlock(plans, block);
      var k :| 0 <= k < |plans| && plans[k].block == block;
      assert PlanOf(active, start.head, start.batch, plans[k]);
      assert j in plans[k].indices;
      assert PlanYields(net, start.chain, active, plans[k]);
    }
  }

  /** A poll whose whole plan is committed hands some block of its chain to the sink again if and only if,
      when it starts, a delivered block of the chain lies in the share of a monitor that finds something
      in it. */
  lemma RepeatsExactly(net: Network, run: seq<World>, start: Step)
    requires IsPollRun(net, run, start)
    requires start.chain in run[|run| - 1].polls && run[|run| - 1].polls[start.chain].done == |start.plans|
    ensures start.batch >= 1
    ensures DeliveredAgain(run[0].sink, run[|run| - 1].sink, start.chain) <==> WillRepeat(net, run[0].sink, start)
  {
    var before := run[0].sink;
    RepeatIsYielded(net, run, start);
    forall i: nat | i < |before|
      ensures YieldedBy(net, start, |start.plans|, before[i].block) <==>
              exists j: nat :: j < |start.active| && InShare(start.active[j], start.head, start.batch, before[i].block) &&
                               Yields(net, start.chain, start.active, j, before[i].block)
    {
      YieldedIsShared(net, start, before[i].block);
    }
    if DeliveredAgain(before, run[|run| - 1].sink, start.chain) {
      var i: nat :| i < |before| && before[i].chain == start.chain && YieldedBy(net, start, |start.plans|, before[i].block);
      var j: nat :| j < |start.active| && InShare(start.active[j], start.head, start.batch, before[i].block) &&
                    Yields(net, start.chain, start.active, j, before[i].block);
      assert Overlaps(before, start, i, j);
    }
  }

  /** The check before the call: if no delivered block of the chain lies in any share, the poll repeats
      no block, however far it gets. */
  lemma NoOverlapNoRepeat(net: Network, run: seq<World>, start: Step)
    requires IsPollRun(net, run, start) && start.batch >= 1 && !MayRepeat(run[0].sink, start)
    ensures !DeliveredAgain(run[0].sink, run[|run| - 1].sink, start.chain)
  {
    var before, w := run[0].sink, run[|run| - 1];
    RepeatIsYielded(net, run, start);
    var done := w.polls[start.chain].done;
    forall i: nat | i < |before| && before[i].chain == start.chain
      ensures !YieldedBy(net, start, done, before[i].block)
    {
      YieldedIsShared(net, start, before[i].block);
      if YieldedBy(net, start, done, before[i].block) {
        assert YieldedBy(net, start, |start.plans|, before[i].block);
        var j: nat :| j < |start.active| && InShare(start.active[j], start.head, start.batch, before[i].block);
        assert Overlaps(before, start, i, j);
      }
    }
  }

  /** The poll that delivers block 0 for the second time is one the check before the call warns of. */
  lemma TwiceWasForeseen(tx: CallTx) returns (w: World, start: Step)
    ensures Reachable(OneCallNetwork(tx), w) && start.StartPoll? && start.batch >= 1
    ensures exists w' :: Next(OneCallNetwork(tx), w, start, w')
    ensures MayRepeat(w.sink, start) && WillRepeat(OneCallNetwork(tx), w.sink, start)
  {
    var net, first := OneCallNetwork(tx), World(Store(map[], map[]), 0, map[], 0, []);
    assert IsRun(net, [first]) && [first][|[first]| - 1] == first;
    DeliverBlock(tx, first);
    var served := Served(tx, first);
    CreateWatcher(tx, served);
    w := Watched(tx, served);
    start := StartPoll(0, 0, 1, [Watcher(tx, served.nextId)], [BlockPlan(0, [0])]);
    StartIsNext(tx, served);
    WatcherScan(tx, served.nextId);
    assert net.source(0) == OneTransaction(tx);
    assert Overlaps(w.sink, start, 0, 0) && Yields(net, 0, start.active, 0, w.sink[0].block);
  }
}
