/** The indexing protocol as a step machine. Per chain one worker polls: it loads monitors, plans blocks,
    prepares them in any order, and commits them in plan order. Monitors are created, paused, resumed and
    deleted at any moment; a commit may be refused, or be applied and still be reported as an error; a
    poll may be cancelled, fail or crash between any two steps. */
module Protocol {
  import opened Domain
  import opened Abi
  import opened FilterProofs
  import opened Indexer
  import opened Preparer
  import opened Scheduler
  import opened Storage

  /** The decoder, and the finalized chain behind each chain ID. */
  datatype Network = Network(d: Decoders, source: nat -> Source)

  ghost predicate ValidNetwork(net: Network) {
    WellTyped(net.d) && forall chain: nat :: ValidSource(net.source(chain))
  }

  datatype Batch = Batch(chain: nat, block: U64, poll: nat, listed: seq<Monitor>, results: seq<Decoded>) {
    function Monitors(): set<nat> {
      Ids(listed)
    }
  }

  /** One worker's state during a poll; `ready` holds finished preparations by plan position. */
  datatype Poll = Poll(
    number: nat,
    head: U64,
    batch: U64,
    active: seq<Monitor>,
    plans: seq<BlockPlan>,
    done: nat,
    ready: map<nat, seq<Decoded>>,
    progress: seq<Option<U64>>)

  datatype World = World(store: Store, nextId: nat, polls: map<nat, Poll>, nextPoll: nat, sink: seq<Batch>)

  datatype Reply =
    | Accepted   // applied and reported as success
    | Lost       // applied but reported as an error
    | Refused    // not applied, reported as an error

  datatype Step =
    | Create(monitor: Monitor)
    | SetEnabled(id: nat, enabled: bool)
    | Delete(id: nat)
    | StartPoll(chain: nat, head: U64, batch: U64, active: seq<Monitor>, plans: seq<BlockPlan>)
    | FinishPreparing(chain: nat, position: nat, results: seq<Decoded>)
    | CommitNext(chain: nat, reply: Reply)
    | StopPoll(chain: nat)

  // ---- Monitors ----

  /** What is fixed when a monitor is created. */
  function Definition(m: Monitor): Monitor {
    m.(cursor := None, completed := false, enabled := true)
  }

  /** What creation validates: the range, the widths storage keeps, the filter and the event layout. */
  ghost predicate WellDefined(m: Monitor) {
    && m.start <= I64_MAX
    && (m.end.Some? ==> m.start <= m.end.value <= I64_MAX)
    && CompiledFor(m.filter, m.target)
    && (m.target.EventTarget? ==> Decodable(m.target.params))
    && (m.target.CallTarget? ==> NoneIndexed(m.target.params))
  }

  /** Only event parameters are indexed. */
  predicate NoneIndexed(params: seq<AbiParam>) {
    forall i :: 0 <= i < |params| ==> !params[i].indexed
  }

  /** The monitors a poll works on: every enabled, unfinished monitor of the chain, once. */
  ghost predicate Loaded(store: Store, chain: nat, active: seq<Monitor>) {
    && DistinctIds(active)
    && (forall m :: m in active ==> m.id in store.monitors && store.monitors[m.id] == m && m.chain == chain && m.Active())
    && (forall id :: id in store.monitors && store.monitors[id].chain == chain && store.monitors[id].Active() ==>
          store.monitors[id] in active)
  }

  function PlanMonitors(p: Poll, k: nat): seq<Monitor>
    requires k < |p.plans| && forall j :: j in p.plans[k].indices ==> j < |p.active|
  {
    assert forall i :: 0 <= i < |p.plans[k].indices| ==> p.plans[k].indices[i] in p.plans[k].indices;
    seq(|p.plans[k].indices|, i requires 0 <= i < |p.plans[k].indices| => p.active[p.plans[k].indices[i]])
  }

  function CommitOf(chain: nat, p: Poll): BlockCommit
    requires p.done < |p.plans| && p.done in p.ready && forall j :: j in p.plans[p.done].indices ==> j < |p.active|
  {
    BlockCommit(chain, p.plans[p.done].block, PlanMonitors(p, p.done), p.ready[p.done])
  }

  /** A batch is encoded only if every result belongs to a listed monitor of its kind. */
  predicate Encodable(commit: BlockCommit) {
    forall x :: x in commit.results ==> Encodes(x, commit.monitors)
  }

  predicate Encodes(x: Decoded, monitors: seq<Monitor>) {
    exists k :: 0 <= k < |monitors| && EncodesFor(x, monitors[k])
  }

  predicate EncodesFor(x: Decoded, m: Monitor) {
    m.id == x.monitor && x.DecodedCall? == m.target.CallTarget? && |x.params| == |m.target.params|
  }

  function Submitted(sink: seq<Batch>, poll: nat, commit: BlockCommit): seq<Batch> {
    if commit.results == [] || !Encodable(commit) then sink
    else sink + [Batch(commit.chain, commit.block, poll, commit.monitors, commit.results)]
  }

  function Advanced(p: Poll): Poll
    requires p.done < |p.plans|
  {
    p.(done := p.done + 1,
       progress := seq(|p.progress|, j requires 0 <= j < |p.progress| =>
         if j in p.plans[p.done].indices then Some(p.plans[p.done].block) else p.progress[j]))
  }

  // ---- Steps ----

  ghost predicate Init(w: World) {
    w.store == Store(map[], map[]) && w.polls == map[] && w.sink == []
  }

  ghost predicate Next(net: Network, w: World, step: Step, w': World) {
    match step
    case Create(m) =>
      && m.id == w.nextId && m == Definition(m) && WellDefined(m)
      && w' == w.(store := Store(w.store.monitors[m.id := m], w.store.tables[m.id := []]), nextId := w.nextId + 1)
    case SetEnabled(id, enabled) =>
      && id in w.store.monitors
      && w' == w.(store := w.store.(monitors := w.store.monitors[id := w.store.monitors[id].(enabled := enabled)]))
    case Delete(id) =>
      && id in w.store.monitors
      && w' == w.(store := Store(w.store.monitors - {id}, w.store.tables - {id}))
    case StartPoll(chain, head, batch, active, plans) =>
      && chain !in w.polls && batch >= 1
      && Loaded(w.store, chain, active) && IsPlan(active, head, batch, plans)
      && w' == w.(nextPoll := w.nextPoll + 1,
                  polls := w.polls[chain := Poll(w.nextPoll, head, batch, active, plans, 0, map[], Cursors(active))])
    case FinishPreparing(chain, position, results) =>
      && chain in w.polls && position < |w.polls[chain].plans|
      && PreparedFor(net.d, net.source(chain), w.polls[chain].active, w.polls[chain].plans[position], results)
      && w' == w.(polls := w.polls[chain := w.polls[chain].(ready := w.polls[chain].ready[position := results])])
    case CommitNext(chain, reply) =>
      && chain in w.polls && CanCommit(w.polls[chain])
      && CommitStep(w, chain, reply, w')
    case StopPoll(chain) =>
      chain in w.polls && w' == w.(polls := w.polls - {chain})
  }

  function Cursors(active: seq<Monitor>): seq<Option<U64>> {
    seq(|active|, j requires 0 <= j < |active| => active[j].cursor)
  }

  predicate CanCommit(p: Poll) {
    p.done < |p.plans| && p.done in p.ready && forall j :: j in p.plans[p.done].indices ==> j < |p.active|
  }

  ghost predicate CommitStep(w: World, chain: nat, reply: Reply, w': World)
    requires chain in w.polls && CanCommit(w.polls[chain])
  {
    var p := w.polls[chain];
    var commit := CommitOf(chain, p);
    match reply
    case Accepted =>
      && Acceptable(w.store, commit)
      && w' == w.(store := Committed(w.store, commit), polls := w.polls[chain := Advanced(p)],
                  sink := Submitted(w.sink, p.number, commit))
    case Lost =>
      && Acceptable(w.store, commit)
      && w' == w.(store := Committed(w.store, commit), polls := w.polls - {chain})
    case Refused =>
      w' == w.(polls := w.polls - {chain})
  }

  /** A run: worlds linked by steps, from an initial one. */
  ghost predicate IsRun(net: Network, run: seq<World>) {
    && run != [] && Init(run[0])
    && forall i :: 0 <= i < |run| - 1 ==> Linked(net, run[i], run[i + 1])
  }

  ghost predicate Linked(net: Network, w: World, w': World) {
    exists step :: Next(net, w, step, w')
  }

  ghost predicate Reachable(net: Network, w: World) {
    exists run :: IsRun(net, run) && run[|run| - 1] == w
  }
}
