/** Once per monitor and block does not mean once per block: a concrete run delivers one block twice, in
    different polls and to different monitors. */
module SinkWitness {
  import opened Domain
  import opened Results
  import opened Abi
  import opened FilterCompiler
  import opened Indexer
  import opened BlockDecoder
  import opened Preparer
  import opened Scheduler
  import opened Storage
  import opened Protocol
  import opened ProtocolProofs
  import opened SinkProofs

  type CallTx = tx: Transaction | |tx.input| >= 4 witness Transaction(seq(32, _ => 0), seq(20, _ => 0), seq(20, _ => 0), [0, 0, 0, 0])

  function OneTransaction(tx: CallTx): Source {
    Source((n: U64) => [tx], (h: Hash) => true, (n: U64) => [])
  }

  /** Every block holds one successful call without parameters. */
  function OneCallNetwork(tx: CallTx): Network {
    Network(
      Decoders((layout: CallLayout, data: Bytes) => Some([]),
               (layout: EventLayout, topic0: Hash, topics: seq<Hash>, data: Bytes) => None),
      (chain: nat) => OneTransaction(tx))
  }

  /** Watches block 0 only. */
  function Watcher(tx: CallTx, id: nat): Monitor {
    Monitor(id, 0, CallTarget(tx.to, tx.input[..4], []), 0, Some(0), None, false, true, All)
  }

  function Found(tx: CallTx, id: nat): Decoded {
    DecodedCall(id, 0, tx.hash, tx.from, tx.to, [])
  }

  lemma WatcherScan(tx: CallTx, id: nat)
    ensures ScanBlock(OneCallNetwork(tx).d, OneTransaction(tx), Watcher(tx, id), 0) == [Found(tx, id)]
  {
    var d := OneCallNetwork(tx).d;
    assert CallDecode(d, 0, tx)(LayoutOf(Watcher(tx, id))) == Some(CallContext(0, tx.hash, tx.from, tx.to, []));
    assert TxHits(d, Watcher(tx, id), 0, OneTransaction(tx).succeeded)(tx) == [Found(tx, id)];
    var hits := TxHits(d, Watcher(tx, id), 0, OneTransaction(tx).succeeded);
    assert [tx][..0] == [] && Gather([tx], hits) == Gather([], hits) + hits(tx);
    assert OneTransaction(tx).transactions(0) == [tx] && OneTransaction(tx).logs(0) == [];
    assert ScanCalls(d, Watcher(tx, id), 0, [tx], OneTransaction(tx).succeeded) == [Found(tx, id)];
    ScanEventsOfCall(d, Watcher(tx, id), 0, []);
  }

  lemma SinglePrepared(d: Decoders, src: Source, m: Monitor, block: U64, x: Decoded)
    requires ScanBlock(d, src, m, block) == [x] && x.monitor == m.id && m.NeedsBlock(block)
    ensures PreparedFor(d, src, [m], BlockPlan(block, [0]), [x])
  {
    SelectAll([x], m.id);
    assert Select([x], m.id) == [x];
    assert IsPlanned([m], 0, block, [0]) && OfPlanned(x, [m], block, [0]);
  }

  lemma WatcherPrepared(tx: CallTx, id: nat)
    ensures PreparedFor(OneCallNetwork(tx).d, OneTransaction(tx), [Watcher(tx, id)], BlockPlan(0, [0]), [Found(tx, id)])
  {
    WatcherScan(tx, id);
    SinglePrepared(OneCallNetwork(tx).d, OneTransaction(tx), Watcher(tx, id), 0, Found(tx, id));
  }

  lemma WatcherPlan(tx: CallTx, id: nat)
    ensures IsPlan([Watcher(tx, id)], 0, 1, [BlockPlan(0, [0])])
  {
    assert HasBlock([BlockPlan(0, [0])], 0) by {
      assert [BlockPlan(0, [0])][0].block == 0;
    }
    assert PlanOf([Watcher(tx, id)], 0, 1, BlockPlan(0, [0]));
  }

  /** No other monitor is active. */
  ghost predicate AllDone(w: World) {
    w.polls == map[] && forall id :: id in w.store.monitors ==> id < w.nextId && !w.store.monitors[id].Active()
  }

  function Watched(tx: CallTx, w: World): World {
    w.(store := Store(w.store.monitors[w.nextId := Watcher(tx, w.nextId)], w.store.tables[w.nextId := []]), nextId := w.nextId + 1)
  }

  function WatcherPoll(tx: CallTx, id: nat, number: nat): Poll {
    Poll(number, 0, 1, [Watcher(tx, id)], [BlockPlan(0, [0])], 0, map[], Cursors([Watcher(tx, id)]))
  }

  lemma CreateWatcher(tx: CallTx, w: World)
    requires Reachable(OneCallNetwork(tx), w)
    ensures Reachable(OneCallNetwork(tx), Watched(tx, w))
  {
    ReachableStep(OneCallNetwork(tx), w, Create(Watcher(tx, w.nextId)), Watched(tx, w));
  }

  lemma WatcherLoaded(tx: CallTx, w: World)
    requires AllDone(w)
    ensures Loaded(Watched(tx, w).store, 0, [Watcher(tx, w.nextId)])
  {
  }

  function Started(tx: CallTx, w: World): World {
    Watched(tx, w).(nextPoll := w.nextPoll + 1, polls := map[0 := WatcherPoll(tx, w.nextId, w.nextPoll)])
  }

  lemma StartIsNext(tx: CallTx, w: World)
    requires AllDone(w)
    ensures Next(OneCallNetwork(tx), Watched(tx, w), StartPoll(0, 0, 1, [Watcher(tx, w.nextId)], [BlockPlan(0, [0])]), Started(tx, w))
  {
    var active, plans := [Watcher(tx, w.nextId)], [BlockPlan(0, [0])];
    WatcherLoaded(tx, w);
    WatcherPlan(tx, w.nextId);
    var from := Watched(tx, w);
    assert Started(tx, w) == from.(nextPoll := from.nextPoll + 1,
                                   polls := from.polls[0 := Poll(from.nextPoll, 0, 1, active, plans, 0, map[], Cursors(active))]);
  }

  lemma StartWatcher(tx: CallTx, w: World)
    requires Reachable(OneCallNetwork(tx), Watched(tx, w)) && AllDone(w)
    ensures Reachable(OneCallNetwork(tx), Started(tx, w))
  {
    StartIsNext(tx, w);
    ReachableStep(OneCallNetwork(tx), Watched(tx, w), StartPoll(0, 0, 1, [Watcher(tx, w.nextId)], [BlockPlan(0, [0])]), Started(tx, w));
  }

  function Polling(tx: CallTx, w: World): World {
    Started(tx, w).(polls := map[0 := WatcherPoll(tx, w.nextId, w.nextPoll).(ready := map[0 := [Found(tx, w.nextId)]])])
  }

  lemma PreparingIsNext(tx: CallTx, w: World)
    ensures Next(OneCallNetwork(tx), Started(tx, w), FinishPreparing(0, 0, [Found(tx, w.nextId)]), Polling(tx, w))
  {
    var p, results := WatcherPoll(tx, w.nextId, w.nextPoll), [Found(tx, w.nextId)];
    WatcherPrepared(tx, w.nextId);
    assert OneCallNetwork(tx).source(0) == OneTransaction(tx);
    assert map[0 := p][0 := p.(ready := map[0 := results])] == map[0 := p.(ready := map[0 := results])];
  }

  lemma PrepareWatcher(tx: CallTx, w: World)
    requires Reachable(OneCallNetwork(tx), Started(tx, w))
    ensures Reachable(OneCallNetwork(tx), Polling(tx, w))
  {
    PreparingIsNext(tx, w);
    ReachableStep(OneCallNetwork(tx), Started(tx, w), FinishPreparing(0, 0, [Found(tx, w.nextId)]), Polling(tx, w));
  }

  lemma WatcherCommit(tx: CallTx, p: Poll, id: nat, number: nat)
    requires p == WatcherPoll(tx, id, number).(ready := map[0 := [Found(tx, id)]])
    ensures CanCommit(p) && CommitOf(0, p) == BlockCommit(0, 0, [Watcher(tx, id)], [Found(tx, id)])
    ensures Ids([Watcher(tx, id)]) == {id}
  {
    assert PlanMonitors(p, 0) == [Watcher(tx, id)];
    assert [Watcher(tx, id)][0].id == id;
  }

  lemma WatcherAcceptable(tx: CallTx, store: Store, id: nat)
    requires id in store.monitors && store.monitors[id] == Watcher(tx, id) && Table(store, id) == []
    ensures Acceptable(store, BlockCommit(0, 0, [Watcher(tx, id)], [Found(tx, id)]))
  {
    var commit := BlockCommit(0, 0, [Watcher(tx, id)], [Found(tx, id)]);
    assert commit.monitors[0].id == id;
    assert Locked(store, commit) == map[id := Watcher(tx, id)];
    SelectAll([Found(tx, id)], id);
  }

  function Served(tx: CallTx, w: World): World {
    var commit := BlockCommit(0, 0, [Watcher(tx, w.nextId)], [Found(tx, w.nextId)]);
    w.(store := Committed(Watched(tx, w).store, commit), nextId := w.nextId + 1, nextPoll := w.nextPoll + 1,
       sink := w.sink + [Batch(0, 0, w.nextPoll, [Watcher(tx, w.nextId)], [Found(tx, w.nextId)])])
  }

  lemma WatcherSubmitted(tx: CallTx, w: World)
    ensures var p := Polling(tx, w).polls[0];
            && CanCommit(p)
            && Submitted(w.sink, p.number, CommitOf(0, p)) == Served(tx, w).sink
  {
    var p := Polling(tx, w).polls[0];
    WatcherCommit(tx, p, w.nextId, w.nextPoll);
    assert EncodesFor(Found(tx, w.nextId), CommitOf(0, p).monitors[0]);
  }

  function AfterCommit(tx: CallTx, w: World): World {
    Served(tx, w).(polls := map[0 := Advanced(Polling(tx, w).polls[0])])
  }

  lemma CommittingIsNext(tx: CallTx, w: World)
    ensures Next(OneCallNetwork(tx), Polling(tx, w), CommitNext(0, Accepted), AfterCommit(tx, w))
  {
    var from := Polling(tx, w);
    var p := from.polls[0];
    WatcherCommit(tx, p, w.nextId, w.nextPoll);
    WatcherAcceptable(tx, from.store, w.nextId);
    WatcherSubmitted(tx, w);
    assert from.polls[0 := Advanced(p)] == map[0 := Advanced(p)];
  }

  lemma CommitWatcher(tx: CallTx, w: World)
    requires Reachable(OneCallNetwork(tx), Polling(tx, w))
    ensures Reachable(OneCallNetwork(tx), AfterCommit(tx, w))
  {
    CommittingIsNext(tx, w);
    ReachableStep(OneCallNetwork(tx), Polling(tx, w), CommitNext(0, Accepted), AfterCommit(tx, w));
  }

  lemma StopWatcher(tx: CallTx, w: World)
    requires Reachable(OneCallNetwork(tx), AfterCommit(tx, w)) && AllDone(w)
    ensures Reachable(OneCallNetwork(tx), Served(tx, w))
  {
    assert AfterCommit(tx, w).polls - {0} == Served(tx, w).polls;
    ReachableStep(OneCallNetwork(tx), AfterCommit(tx, w), StopPoll(0), Served(tx, w));
  }

  /** A fresh watcher gets block 0, whoever had it before. */
  lemma DeliverBlock(tx: CallTx, w: World)
    requires Reachable(OneCallNetwork(tx), w) && AllDone(w)
    ensures Reachable(OneCallNetwork(tx), Served(tx, w)) && AllDone(Served(tx, w))
  {
    CreateWatcher(tx, w);
    StartWatcher(tx, w);
    PrepareWatcher(tx, w);
    CommitWatcher(tx, w);
    StopWatcher(tx, w);
    assert [Watcher(tx, w.nextId)][0].id == w.nextId;
  }

  /** Two watchers created one after the other each get block 0, in a poll of their own. */
  lemma BlockDeliveredTwice(tx: CallTx) returns (w: World)
    ensures Reachable(OneCallNetwork(tx), w) && |w.sink| == 2
    ensures w.sink[0].chain == w.sink[1].chain && w.sink[0].block == w.sink[1].block
    ensures w.sink[0].Monitors() * w.sink[1].Monitors() == {} && w.sink[0].poll != w.sink[1].poll
  {
    var start := World(Store(map[], map[]), 0, map[], 0, []);
    assert IsRun(OneCallNetwork(tx), [start]) && [start][|[start]| - 1] == start;
    DeliverBlock(tx, start);
    DeliverBlock(tx, Served(tx, start));
    w := Served(tx, Served(tx, start));
    SameBlockTwice(OneCallNetwork(tx), w, 0, 1);
  }
}
