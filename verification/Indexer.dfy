/** The per-poll monitor index: active monitors hashed by target key, then grouped by wire layout so
    that one decode serves every monitor of a group; and the decoders that fan results out. */
module Indexer {
  import opened Domain
  import opened Results
  import opened Abi
  import opened FilterCompiler
  import opened FilterProofs
  import opened Findings

  datatype Key = CallKey(address: Address, selector: Selector) | EventKey(emitter: Address, topic0: Hash)
  datatype Layout = Calls(types: CallLayout) | Events(params: EventLayout)

  type Groups = map<Key, map<Layout, seq<nat>>>

  datatype MonitorIndex = MonitorIndex(monitors: seq<Monitor>, calls: Groups, events: Groups)

  function KeyOf(m: Monitor): Key {
    match m.target
    case CallTarget(address, selector, _) => CallKey(address, selector)
    case EventTarget(address, topic0, _) => EventKey(address, topic0)
  }

  function LayoutOf(m: Monitor): Layout {
    match m.target
    case CallTarget(_, _, params) => Calls(CallLayoutOf(params))
    case EventTarget(_, _, params) => Events(EventLayoutOf(params))
  }

  function Group(groups: Groups, key: Key, layout: Layout): seq<nat> {
    if key in groups && layout in groups[key] then groups[key][layout] else []
  }

  // ---- MonitorIndex::new ----

  predicate Belongs(m: Monitor, calls: bool, key: Key, layout: Layout) {
    m.target.CallTarget? == calls && KeyOf(m) == key && LayoutOf(m) == layout
  }

  /** Every group lists exactly the first `n` monitors of its key and layout, ascending. */
  ghost predicate Grouped(groups: Groups, monitors: seq<Monitor>, n: nat, calls: bool)
    requires n <= |monitors|
  {
    forall key, layout :: GroupedAt(Group(groups, key, layout), monitors, n, calls, key, layout)
  }

  ghost predicate GroupedAt(members: seq<nat>, monitors: seq<Monitor>, n: nat, calls: bool, key: Key, layout: Layout)
    requires n <= |monitors|
  {
    Ascending(members) && forall j: nat :: j in members <==> j < n && Belongs(monitors[j], calls, key, layout)
  }

  function Add(groups: Groups, key: Key, layout: Layout, index: nat): Groups {
    var layouts := if key in groups then groups[key] else map[];
    groups[key := layouts[layout := (if layout in layouts then layouts[layout] else []) + [index]]]
  }

  lemma AddKeepsGrouped(groups: Groups, monitors: seq<Monitor>, n: nat, calls: bool)
    requires n < |monitors| && Grouped(groups, monitors, n, calls)
    ensures var m := monitors[n];
            Grouped(
              if m.target.CallTarget? == calls then Add(groups, KeyOf(m), LayoutOf(m), n) else groups,
              monitors, n + 1, calls)
  {
    var m := monitors[n];
    var next := if m.target.CallTarget? == calls then Add(groups, KeyOf(m), LayoutOf(m), n) else groups;
    forall key, layout
      ensures GroupedAt(Group(next, key, layout), monitors, n + 1, calls, key, layout)
    {
      var before := Group(groups, key, layout);
      assert GroupedAt(before, monitors, n, calls, key, layout);
      if Belongs(m, calls, key, layout) {
        assert Group(next, key, layout) == before + [n];
        forall i | 0 <= i < |before|
          ensures before[i] < n
        {
          assert before[i] in before;
        }
      } else {
        assert Group(next, key, layout) == before;
      }
    }
  }

  ghost predicate NoEmptyGroup(groups: Groups) {
    forall key, layout :: key in groups && layout in groups[key] ==> groups[key][layout] != []
  }

  ghost predicate ValidIndex(index: MonitorIndex) {
    && NoEmptyGroup(index.calls)
    && NoEmptyGroup(index.events)
    && Grouped(index.calls, index.monitors, |index.monitors|, true)
    && Grouped(index.events, index.monitors, |index.monitors|, false)
  }

  function ActiveOnly(monitors: seq<Monitor>): (r: seq<Monitor>)
    ensures forall m :: m in r <==> m in monitors && m.Active()
  {
    KeepMembers(monitors, (m: Monitor) => m.Active());
    Keep(monitors, (m: Monitor) => m.Active())
  }

  lemma GroupDecodable(events: Groups, monitors: seq<Monitor>, n: nat)
    requires n < |monitors| && monitors[n].target.EventTarget?
    requires Grouped(events, monitors, n, false) && NoEmptyGroup(events)
    requires KeyOf(monitors[n]) in events && LayoutOf(monitors[n]) in events[KeyOf(monitors[n])]
    requires forall j :: 0 <= j < n && monitors[j].target.EventTarget? ==> Decodable(monitors[j].target.params)
    ensures Decodable(monitors[n].target.params)
  {
    var key, layout := KeyOf(monitors[n]), LayoutOf(monitors[n]);
    var members := Group(events, key, layout);
    assert GroupedAt(members, monitors, n, false, key, layout);
    assert members[0] in members;
    assert LayoutOf(monitors[members[0]]) == layout;
  }

  /** Builds the index. It fails exactly when an active event monitor has more indexed parameters
      than a log has topics for. */
  method NewIndex(monitors: seq<Monitor>) returns (r: Result<MonitorIndex>)
    ensures r.Ok? ==> r.value.monitors == ActiveOnly(monitors) && ValidIndex(r.value)
    ensures r.Ok? <==>
              forall m :: m in ActiveOnly(monitors) && m.target.EventTarget? ==> Decodable(m.target.params)
  {
    var active := ActiveOnly(monitors);
    var calls: Groups, events: Groups := map[], map[];
    for i := 0 to |active|
      invariant Grouped(calls, active, i, true) && NoEmptyGroup(calls)
      invariant Grouped(events, active, i, false) && NoEmptyGroup(events)
      invariant forall j :: 0 <= j < i && active[j].target.EventTarget? ==> Decodable(active[j].target.params)
    {
      var m := active[i];
      AddKeepsGrouped(calls, active, i, true);
      AddKeepsGrouped(events, active, i, false);
      if m.target.CallTarget? {
        calls := Add(calls, KeyOf(m), LayoutOf(m), i);
      } else {
        if KeyOf(m) in events && LayoutOf(m) in events[KeyOf(m)] {
          GroupDecodable(events, active, i);
        } else if !Decodable(m.target.params) {
          assert m in active;
          return Err;
        }
        events := Add(events, KeyOf(m), LayoutOf(m), i);
      }
    }
    r := Ok(MonitorIndex(active, calls, events));
  }

  // ---- Planned monitors ----

  /** Binary search over the plan's indices. */
  function BinarySearch(s: seq<nat>, x: nat): bool {
    if s == [] then false
    else
      var mid := |s| / 2;
      if s[mid] == x then true
      else if s[mid] < x then BinarySearch(s[mid + 1..], x)
      else BinarySearch(s[..mid], x)
  }

  lemma {:induction false} BinarySearchFinds(s: seq<nat>, x: nat)
    requires Ascending(s)
    ensures BinarySearch(s, x) <==> x in s
    decreases |s|
  {
    if s == [] {
    } else {
      var mid := |s| / 2;
      assert s == s[..mid] + [s[mid]] + s[mid + 1..];
      BinarySearchFinds(s[mid + 1..], x);
      BinarySearchFinds(s[..mid], x);
    }
  }

  predicate IsPlanned(monitors: seq<Monitor>, j: nat, block: U64, planned: seq<nat>) {
    BinarySearch(planned, j) && j < |monitors| && monitors[j].NeedsBlock(block)
  }

  predicate AnyPlanned(monitors: seq<Monitor>, members: seq<nat>, block: U64, planned: seq<nat>) {
    exists j :: j in members && IsPlanned(monitors, j, block, planned)
  }

  predicate HasPlanned(monitors: seq<Monitor>, groups: Groups, key: Key, block: U64, planned: seq<nat>) {
    key in groups && exists layout :: layout in groups[key] && AnyPlanned(monitors, groups[key][layout], block, planned)
  }

  predicate DistinctIds(monitors: seq<Monitor>) {
    forall i, j :: 0 <= i < j < |monitors| ==> monitors[i].id != monitors[j].id
  }

  // ---- What one monitor alone would decode ----

  function Emit(id: nat, ctx: Context): Decoded {
    match ctx
    case CallContext(block, txHash, from, to, params) => DecodedCall(id, block, txHash, from, to, params)
    case EventContext(block, txHash, _, logIndex, params) => DecodedEvent(id, block, txHash, logIndex, params)
  }

  function Matches(m: Monitor, ctx: Context): seq<Decoded> {
    if Evaluate(m.filter, ctx) == Ok(true) then [Emit(m.id, ctx)] else []
  }

  /** A result carries the monitor's id and what the context shows of the transaction or log. */
  predicate ShowsContext(x: Decoded, id: nat, ctx: Context) {
    match ctx
    case CallContext(block, txHash, from, to, params) =>
      && x.DecodedCall? && x.monitor == id && x.block == block && x.txHash == txHash
      && x.from == from && x.to == to && x.params == params
    case EventContext(block, txHash, _, logIndex, params) =>
      && x.DecodedEvent? && x.monitor == id && x.block == block && x.txHash == txHash
      && x.logIndex == logIndex && x.params == params
  }

  /** A monitor alone gives exactly one result for a context its condition holds of, and none otherwise. */
  ghost predicate GivesWanted(out: seq<Decoded>, m: Monitor, ctx: Context) {
    forall e :: Condition(m, e) && Fits(ctx, m.target) ==>
      if Wanted(e, m.target, ctx) then |out| == 1 && ShowsContext(out[0], m.id, ctx) else out == []
  }

  lemma MatchesMeans(m: Monitor, ctx: Context)
    ensures GivesWanted(Matches(m, ctx), m, ctx)
  {
    forall e | Condition(m, e) && Fits(ctx, m.target)
      ensures if Wanted(e, m.target, ctx) then |Matches(m, ctx)| == 1 && ShowsContext(Matches(m, ctx)[0], m.id, ctx) else Matches(m, ctx) == []
    {
      ConditionDecides(m, e, ctx);
    }
  }

  type Decode = Layout -> Option<Context>

  /** Decoding with the monitor's own schema and applying its own filter. */
  function Hit(m: Monitor, decode: Decode): seq<Decoded> {
    match decode(LayoutOf(m))
    case None => []
    case Some(ctx) => Matches(m, ctx)
  }

  // ---- Fan-out ----

  /** `out` holds exactly what `gives` for each monitor in `members` that is `on`. */
  ghost predicate Fanned(out: seq<Decoded>, monitors: seq<Monitor>, members: seq<nat>, on: nat -> bool, gives: Monitor -> seq<Decoded>) {
    && (forall j: nat :: j < |monitors| ==>
          Select(out, monitors[j].id) == if j in members && on(j) then gives(monitors[j]) else [])
    && (forall x :: x in out ==> FannedTo(x, monitors, members, on))
  }

  ghost predicate FannedTo(x: Decoded, monitors: seq<Monitor>, members: seq<nat>, on: nat -> bool) {
    exists j :: j in members && j < |monitors| && on(j) && x.monitor == monitors[j].id
  }

  lemma FanOne(out: seq<Decoded>, monitors: seq<Monitor>, members: seq<nat>, j: nat, on: nat -> bool, gives: Monitor -> seq<Decoded>,
               more: seq<Decoded>)
    requires DistinctIds(monitors) && j < |monitors| && j !in members
    requires Fanned(out, monitors, members, on, gives)
    requires more == if on(j) then gives(monitors[j]) else []
    requires forall x :: x in more ==> x.monitor == monitors[j].id
    ensures Fanned(out + more, monitors, members + [j], on, gives)
  {
    forall k: nat | k < |monitors|
      ensures Select(out + more, monitors[k].id) == if k in members + [j] && on(k) then gives(monitors[k]) else []
    {
      SelectConcat(out, more, monitors[k].id);
      if k == j {
        SelectAll(more, monitors[k].id);
      } else {
        SelectNone(more, monitors[k].id);
      }
    }
    forall x | x in out + more
      ensures FannedTo(x, monitors, members + [j], on)
    {
      if x in out {
        assert FannedTo(x, monitors, members, on);
      } else {
        assert j in members + [j];
      }
    }
  }

  function PlannedAt(monitors: seq<Monitor>, block: U64, planned: seq<nat>): nat -> bool {
    (j: nat) => IsPlanned(monitors, j, block, planned)
  }

  function MatchesOf(ctx: Context): Monitor -> seq<Decoded> {
    m => Matches(m, ctx)
  }

  /** One decoded context goes to every planned monitor of the group whose filter accepts it. */
  method FanOut(monitors: seq<Monitor>, members: seq<nat>, block: U64, planned: seq<nat>, ctx: Context)
    returns (r: Result<seq<Decoded>>)
    requires DistinctIds(monitors) && Ascending(members) && forall j :: j in members ==> j < |monitors|
    ensures r.Ok? ==> Fanned(r.value, monitors, members, PlannedAt(monitors, block, planned), MatchesOf(ctx))
    ensures r.Ok? ==> forall j :: j in members && IsPlanned(monitors, j, block, planned) ==>
              GivesWanted(Select(r.value, monitors[j].id), monitors[j], ctx)
    ensures r.Err? ==> exists j ::
              j in members && IsPlanned(monitors, j, block, planned) && Evaluate(monitors[j].filter, ctx).Err?
  {
    var out: seq<Decoded> := [];
    var i := 0;
    while i < |members|
      invariant 0 <= i <= |members|
      invariant Fanned(out, monitors, members[..i], PlannedAt(monitors, block, planned), MatchesOf(ctx))
    {
      var j := members[i];
      assert j in members;
      assert members[..i + 1] == members[..i] + [j];
      var more: seq<Decoded> := [];
      if IsPlanned(monitors, j, block, planned) {
        var accepted := Evaluate(monitors[j].filter, ctx);
        if accepted.Err? {
          return Err;
        }
        if accepted.value {
          more := [Emit(monitors[j].id, ctx)];
        }
      }
      FanOne(out, monitors, members[..i], j, PlannedAt(monitors, block, planned), MatchesOf(ctx), more);
      out := out + more;
      i := i + 1;
    }
    assert members[..|members|] == members;
    forall j | j in members && IsPlanned(monitors, j, block, planned)
      ensures GivesWanted(Select(out, monitors[j].id), monitors[j], ctx)
    {
      MatchesMeans(monitors[j], ctx);
      assert PlannedAt(monitors, block, planned)(j);
      assert Select(out, monitors[j].id) == MatchesOf(ctx)(monitors[j]);
    }
    r := Ok(out);
  }

  /** The monitor is planned here and the key is its own. */
  predicate Reached(monitors: seq<Monitor>, j: nat, calls: bool, key: Key, block: U64, planned: seq<nat>)
    requires j < |monitors|
  {
    IsPlanned(monitors, j, block, planned) && monitors[j].target.CallTarget? == calls && KeyOf(monitors[j]) == key
  }

  /** `out` holds exactly the hits of the reached monitors, those with a layout in `pending` left out. */
  ghost predicate Serves(out: seq<Decoded>, monitors: seq<Monitor>, calls: bool, key: Key, block: U64, planned: seq<nat>,
                         decode: Decode, pending: set<Layout>)
  {
    && (forall j :: 0 <= j < |monitors| ==>
          Select(out, monitors[j].id) ==
          if Reached(monitors, j, calls, key, block, planned) && LayoutOf(monitors[j]) !in pending
          then Hit(monitors[j], decode) else [])
    && (forall x :: x in out ==> Origin(x, monitors, calls, key, block, planned))
  }

  ghost predicate ServesOnly(out: seq<Decoded>, monitors: seq<Monitor>, calls: bool, key: Key, block: U64, planned: seq<nat>,
                             decode: Decode, layout: Layout)
  {
    && (forall j :: 0 <= j < |monitors| ==>
          Select(out, monitors[j].id) ==
          if Reached(monitors, j, calls, key, block, planned) && LayoutOf(monitors[j]) == layout
          then Hit(monitors[j], decode) else [])
    && (forall x :: x in out ==> Origin(x, monitors, calls, key, block, planned))
  }

  ghost predicate Origin(x: Decoded, monitors: seq<Monitor>, calls: bool, key: Key, block: U64, planned: seq<nat>) {
    exists j :: 0 <= j < |monitors| && Reached(monitors, j, calls, key, block, planned) && x.monitor == monitors[j].id
  }

  ghost predicate FilterFails(monitors: seq<Monitor>, calls: bool, key: Key, block: U64, planned: seq<nat>, decode: Decode) {
    exists j ::
      && 0 <= j < |monitors| && Reached(monitors, j, calls, key, block, planned)
      && decode(LayoutOf(monitors[j])).Some?
      && Evaluate(monitors[j].filter, decode(LayoutOf(monitors[j])).value).Err?
  }

  lemma FannedServes(out: seq<Decoded>, monitors: seq<Monitor>, members: seq<nat>, calls: bool, key: Key, layout: Layout,
                     block: U64, planned: seq<nat>, decode: Decode)
    requires GroupedAt(members, monitors, |monitors|, calls, key, layout)
    requires decode(layout).Some? && Fanned(out, monitors, members, PlannedAt(monitors, block, planned), MatchesOf(decode(layout).value))
    ensures ServesOnly(out, monitors, calls, key, block, planned, decode, layout)
  {
  }

  method DecodeLayout(monitors: seq<Monitor>, members: seq<nat>, calls: bool, key: Key, layout: Layout, block: U64,
                      planned: seq<nat>, decode: Decode)
    returns (r: Result<seq<Decoded>>)
    requires DistinctIds(monitors) && GroupedAt(members, monitors, |monitors|, calls, key, layout)
    ensures r.Ok? ==> ServesOnly(r.value, monitors, calls, key, block, planned, decode, layout)
    ensures r.Err? ==> FilterFails(monitors, calls, key, block, planned, decode)
  {
    var ctx := decode(layout);
    if !AnyPlanned(monitors, members, block, planned) || ctx.None? {
      return Ok([]);
    }
    r := FanOut(monitors, members, block, planned, ctx.value);
    if r.Ok? {
      FannedServes(r.value, monitors, members, calls, key, layout, block, planned, decode);
    } else {
      ghost var j :| j in members && IsPlanned(monitors, j, block, planned) && Evaluate(monitors[j].filter, ctx.value).Err?;
      assert Reached(monitors, j, calls, key, block, planned);
    }
  }

  lemma ServesMore(a: seq<Decoded>, b: seq<Decoded>, monitors: seq<Monitor>, calls: bool, key: Key, block: U64,
                   planned: seq<nat>, decode: Decode, pending: set<Layout>, layout: Layout)
    requires Serves(a, monitors, calls, key, block, planned, decode, pending) && layout in pending
    requires ServesOnly(b, monitors, calls, key, block, planned, decode, layout)
    ensures Serves(a + b, monitors, calls, key, block, planned, decode, pending - {layout})
  {
    forall j | 0 <= j < |monitors|
      ensures Select(a + b, monitors[j].id) == Select(a, monitors[j].id) + Select(b, monitors[j].id)
    {
      SelectConcat(a, b, monitors[j].id);
    }
  }

  lemma ReachedIsGrouped(monitors: seq<Monitor>, groups: Groups, j: nat, calls: bool, key: Key, block: U64, planned: seq<nat>)
    requires Grouped(groups, monitors, |monitors|, calls)
    requires j < |monitors| && Reached(monitors, j, calls, key, block, planned)
    ensures key in groups && LayoutOf(monitors[j]) in groups[key]
  {
    var layout := LayoutOf(monitors[j]);
    assert GroupedAt(Group(groups, key, layout), monitors, |monitors|, calls, key, layout);
    assert j in Group(groups, key, layout);
  }

  /** Decodes once per layout of one key, in any order of layouts, skipping layouts no planned monitor
      has and layouts that do not decode. Every reached monitor gets exactly its own hits. */
  method MatchKey(monitors: seq<Monitor>, groups: Groups, calls: bool, key: Key, block: U64, planned: seq<nat>, decode: Decode)
    returns (r: Result<seq<Decoded>>)
    requires DistinctIds(monitors) && Grouped(groups, monitors, |monitors|, calls)
    ensures r.Ok? ==> Serves(r.value, monitors, calls, key, block, planned, decode, {})
    ensures r.Err? ==> FilterFails(monitors, calls, key, block, planned, decode)
  {
    var out: seq<Decoded> := [];
    var layouts := if key in groups then groups[key] else map[];
    var rest := layouts.Keys;
    forall j | 0 <= j < |monitors| && Reached(monitors, j, calls, key, block, planned)
      ensures LayoutOf(monitors[j]) in rest
    {
      ReachedIsGrouped(monitors, groups, j, calls, key, block, planned);
    }
    while rest != {}
      invariant rest <= layouts.Keys
      invariant Serves(out, monitors, calls, key, block, planned, decode, rest)
      decreases rest
    {
      var layout :| layout in rest;
      assert GroupedAt(Group(groups, key, layout), monitors, |monitors|, calls, key, layout);
      var found := DecodeLayout(monitors, layouts[layout], calls, key, layout, block, planned, decode);
      if found.Err? {
        return Err;
      }
      ServesMore(out, found.value, monitors, calls, key, block, planned, decode, rest, layout);
      out := out + found.value;
      rest := rest - {layout};
    }
    r := Ok(out);
  }
}
