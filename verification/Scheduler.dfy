/** Planning one poll: which blocks each active monitor wants next, grouped by block, and how the plan
    is cut into windows for ranged log requests. */
module Scheduler {
  import opened Domain

  // ---- plan_blocks ----

  /** The last block a monitor is offered this poll. */
  function LastBlock(m: Monitor, head: U64, batch: U64): U64
    requires batch >= 1
  {
    var target := Min(match m.end case Some(end) => end case None => head, head);
    Min(target, SaturatingAdd(m.NextBlock(), batch - 1))
  }

  /** `block` lies in the monitor's share of this poll. */
  predicate InShare(m: Monitor, head: U64, batch: U64, block: int)
    requires batch >= 1
  {
    m.NextBlock() <= block <= LastBlock(m, head, batch)
  }

  /** A plan names, in ascending block order, exactly the blocks in some monitor's share, each with
      the strictly ascending indices of exactly the monitors whose share holds it. */
  ghost predicate IsPlan(active: seq<Monitor>, head: U64, batch: U64, plans: seq<BlockPlan>)
    requires batch >= 1
  {
    && AscendingPlans(plans)
    && (forall k :: 0 <= k < |plans| ==> PlanOf(active, head, batch, plans[k]))
    && (forall j: nat, block :: j < |active| && InShare(active[j], head, batch, block) ==> HasBlock(plans, block))
  }

  ghost predicate PlanOf(active: seq<Monitor>, head: U64, batch: U64, plan: BlockPlan)
    requires batch >= 1
  {
    && plan.indices != []
    && Ascending(plan.indices)
    && (forall j :: j in plan.indices ==> j < |active|)
    && (forall j: nat {:trigger j in plan.indices} :: j < |active| ==> (j in plan.indices <==> InShare(active[j], head, batch, plan.block)))
  }

  ghost predicate HasBlock(plans: seq<BlockPlan>, block: int) {
    exists k :: 0 <= k < |plans| && plans[k].block == block
  }

  function Wanted(wanted: map<U64, seq<nat>>, block: U64): seq<nat> {
    if block in wanted then wanted[block] else []
  }

  /** The first `n` monitors are entered, the `n`-th only below `upto`. */
  ghost predicate Entered(wanted: map<U64, seq<nat>>, active: seq<Monitor>, head: U64, batch: U64, n: nat, upto: int)
    requires batch >= 1 && n <= |active|
  {
    forall block: U64 ::
      && (block in wanted ==> wanted[block] != [])
      && EnteredAt(Wanted(wanted, block), active, head, batch, n, upto, block)
  }

  ghost predicate EnteredAt(indices: seq<nat>, active: seq<Monitor>, head: U64, batch: U64, n: nat, upto: int, block: int)
    requires batch >= 1 && n <= |active|
  {
    && Ascending(indices)
    && forall j: nat :: j in indices <==>
         && j < |active|
         && InShare(active[j], head, batch, block)
         && (j < n || (j == n && block < upto))
  }

  lemma EnterOne(wanted: map<U64, seq<nat>>, active: seq<Monitor>, head: U64, batch: U64, n: nat, block: U64)
    requires batch >= 1 && n < |active|
    requires Entered(wanted, active, head, batch, n, block)
    requires InShare(active[n], head, batch, block)
    ensures Entered(wanted[block := Wanted(wanted, block) + [n]], active, head, batch, n, block + 1)
  {
    var next := wanted[block := Wanted(wanted, block) + [n]];
    forall b: U64
      ensures b in next ==> next[b] != []
      ensures EnteredAt(Wanted(next, b), active, head, batch, n, block + 1, b)
    {
      assert EnteredAt(Wanted(wanted, b), active, head, batch, n, block, b);
      if b == block {
        forall i | 0 <= i < |Wanted(wanted, b)|
          ensures Wanted(wanted, b)[i] < n
        {
          assert Wanted(wanted, b)[i] in Wanted(wanted, b);
        }
      }
    }
  }

  /** Nothing of the `n`-th monitor is left above `upto`. */
  lemma EnterNext(wanted: map<U64, seq<nat>>, active: seq<Monitor>, head: U64, batch: U64, n: nat, upto: int)
    requires batch >= 1 && n < |active|
    requires Entered(wanted, active, head, batch, n, upto)
    requires upto > LastBlock(active[n], head, batch)
    ensures Entered(wanted, active, head, batch, n + 1, 0)
  {
  }

  method PlanBlocks(active: seq<Monitor>, head: U64, batch: U64) returns (plans: seq<BlockPlan>)
    requires batch >= 1
    ensures IsPlan(active, head, batch, plans)
  {
    var wanted: map<U64, seq<nat>> := map[];
    var index := 0;
    while index < |active|
      invariant 0 <= index <= |active|
      invariant Entered(wanted, active, head, batch, index, 0)
    {
      var block: int := active[index].NextBlock();
      assert Entered(wanted, active, head, batch, index, block) by {
        forall b: U64
          ensures EnteredAt(Wanted(wanted, b), active, head, batch, index, block, b)
        {
          assert EnteredAt(Wanted(wanted, b), active, head, batch, index, 0, b);
        }
      }
      var last := LastBlock(active[index], head, batch);
      while block <= last
        invariant active[index].NextBlock() <= block
        invariant block <= U64_MAX + 1
        invariant Entered(wanted, active, head, batch, index, block)
        decreases last + 1 - block
      {
        EnterOne(wanted, active, head, batch, index, block);
        wanted := wanted[block := Wanted(wanted, block) + [index]];
        block := block + 1;
      }
      EnterNext(wanted, active, head, batch, index, block);
      index := index + 1;
    }
    plans := InBlockOrder(wanted);
    forall j: nat, block | j < |active| && InShare(active[j], head, batch, block)
      ensures HasBlock(plans, block)
    {
      assert EnteredAt(Wanted(wanted, block), active, head, batch, |active|, 0, block);
      assert j in Wanted(wanted, block);
    }
    forall k | 0 <= k < |plans|
      ensures PlanOf(active, head, batch, plans[k])
    {
      assert EnteredAt(Wanted(wanted, plans[k].block), active, head, batch, |active|, 0, plans[k].block);
    }
  }

  lemma {:induction false} LeastBlock(blocks: set<U64>) returns (least: U64)
    requires blocks != {}
    ensures least in blocks && forall b :: b in blocks ==> least <= b
  {
    var some: U64 :| some in blocks;
    if blocks == {some} {
      least := some;
    } else {
      var rest := LeastBlock(blocks - {some});
      least := if rest < some then rest else some;
      assert forall b :: b in blocks ==> b == some || b in blocks - {some};
    }
  }

  ghost predicate Drained(wanted: map<U64, seq<nat>>, rest: set<U64>, plans: seq<BlockPlan>) {
    && AscendingPlans(plans)
    && (forall k :: 0 <= k < |plans| ==> plans[k].block in wanted && plans[k].indices == wanted[plans[k].block])
    && (forall k, b :: 0 <= k < |plans| && b in rest ==> plans[k].block < b)
    && (forall b :: b in wanted && b !in rest ==> HasBlock(plans, b))
  }

  lemma DrainOne(wanted: map<U64, seq<nat>>, rest: set<U64>, plans: seq<BlockPlan>, block: U64)
    requires Drained(wanted, rest, plans) && rest <= wanted.Keys
    requires block in rest && forall b :: b in rest ==> block <= b
    ensures Drained(wanted, rest - {block}, plans + [BlockPlan(block, wanted[block])])
  {
    var next := plans + [BlockPlan(block, wanted[block])];
    forall b | b in wanted && b !in rest - {block}
      ensures HasBlock(next, b)
    {
      if b == block {
        assert next[|plans|].block == b;
      } else {
        var k :| 0 <= k < |plans| && plans[k].block == b;
        assert next[k].block == b;
      }
    }
  }

  /** Drains the ordered map: one plan per key, ascending. */
  method InBlockOrder(wanted: map<U64, seq<nat>>) returns (plans: seq<BlockPlan>)
    ensures Drained(wanted, {}, plans)
  {
    plans := [];
    var rest := wanted.Keys;
    while rest != {}
      invariant rest <= wanted.Keys
      invariant Drained(wanted, rest, plans)
      decreases rest
    {
      ghost var least := LeastBlock(rest);
      var block :| block in rest && forall b :: b in rest ==> block <= b;
      DrainOne(wanted, rest, plans, block);
      plans := plans + [BlockPlan(block, wanted[block])];
      rest := rest - {block};
    }
  }

  // ---- plan_windows ----

  type Window = seq<BlockPlan>

  function Flatten(windows: seq<Window>): Window {
    if windows == [] then [] else Flatten(windows[..|windows| - 1]) + windows[|windows| - 1]
  }

  /** `next` follows `last` without a hole; Rust's `checked_add` has no successor of `u64::MAX`. */
  predicate Follows(last: BlockPlan, next: BlockPlan) {
    last.block < U64_MAX && last.block + 1 == next.block
  }

  predicate Consecutive(w: Window) {
    forall i :: 0 < i < |w| ==> Follows(w[i - 1], w[i])
  }

  predicate IsWindow(w: Window, limit: nat) {
    0 < |w| <= limit && Consecutive(w)
  }

  /** A cut of the plan into non-empty, hole-free windows of at most `limit` blocks. */
  predicate IsSplit(windows: seq<Window>, plans: seq<BlockPlan>, limit: nat) {
    && Flatten(windows) == plans
    && forall i :: 0 <= i < |windows| ==> IsWindow(windows[i], limit)
  }

  /** No window could have taken the next window's first plan. */
  predicate Maximal(windows: seq<Window>, limit: nat)
    requires forall i :: 0 <= i < |windows| ==> windows[i] != []
  {
    forall i :: 0 < i < |windows| ==> !CanTake(windows[i - 1], windows[i][0], limit)
  }

  predicate CanTake(w: Window, next: BlockPlan, limit: nat)
    requires w != []
  {
    |w| < limit && Follows(w[|w| - 1], next)
  }

  method PlanWindows(plans: seq<BlockPlan>, limit: nat) returns (windows: seq<Window>)
    requires limit >= 1
    ensures IsSplit(windows, plans, limit)
    ensures forall other :: IsSplit(other, plans, limit) ==> |windows| <= |other|
  {
    windows := [];
    for i := 0 to |plans|
      invariant IsSplit(windows, plans[..i], limit)
      invariant Maximal(windows, limit)
    {
      var n := |windows|;
      ghost var before := windows;
      if n > 0 && CanTake(windows[n - 1], plans[i], limit) {
        windows := windows[n - 1 := windows[n - 1] + [plans[i]]];
        assert windows[..n - 1] == before[..n - 1];
      } else {
        windows := windows + [[plans[i]]];
        assert windows[..n] == before;
      }
      assert plans[..i + 1] == plans[..i] + [plans[i]];
    }
    assert plans[..|plans|] == plans;
    forall other | IsSplit(other, plans, limit)
      ensures |windows| <= |other|
    {
      GreedyIsOptimal(windows, other, plans, 0, limit);
    }
  }

  lemma {:induction false} FlattenFront(windows: seq<Window>)
    requires windows != []
    ensures Flatten(windows) == windows[0] + Flatten(windows[1..])
  {
    if |windows| <= 1 {
    } else {
      FlattenFront(windows[..|windows| - 1]);
      assert windows[..|windows| - 1][1..] == windows[1..][..|windows| - 2];
    }
  }

  /** A greedy cut of a suffix never needs more windows than any cut of the whole. */
  lemma {:induction false} GreedyIsOptimal(greedy: seq<Window>, other: seq<Window>, plans: seq<BlockPlan>, from: nat, limit: nat)
    requires limit >= 1 && from <= |plans|
    requires IsSplit(greedy, plans[from..], limit) && Maximal(greedy, limit)
    requires IsSplit(other, plans, limit)
    ensures |greedy| <= |other|
    decreases |other|
  {
    if greedy == [] {
    } else {
      HeadOfSplit(greedy, plans, from, limit);
      assert other != [];
      FlattenFront(other);
      var first := |other[0]|;
      var rest := plans[first..];
      assert rest == Flatten(other[1..]);
      if from >= first {
        assert plans[from..] == rest[from - first..];
        GreedyIsOptimal(greedy, other[1..], rest, from - first, limit);
      } else {
        GreedyReaches(greedy, other[0], plans, from, limit);
        var next := from + |greedy[0]|;
        assert plans[from..][|greedy[0]|..] == plans[next..] == rest[next - first..];
        GreedyIsOptimal(greedy[1..], other[1..], rest, next - first, limit);
      }
    }
  }

  /** The first window of a cut of a suffix, and where the second starts. */
  lemma HeadOfSplit(windows: seq<Window>, plans: seq<BlockPlan>, from: nat, limit: nat)
    requires windows != [] && from <= |plans| && IsSplit(windows, plans[from..], limit)
    ensures var next := from + |windows[0]|;
            && next <= |plans|
            && windows[0] == plans[from..next]
            && Flatten(windows[1..]) == plans[next..]
            && (next < |plans| ==> |windows| > 1 && windows[1][0] == plans[next])
  {
    FlattenFront(windows);
    var g := |windows[0]|;
    assert plans[from..][..g] == plans[from..from + g] == windows[0];
    assert plans[from..][g..] == plans[from + g..];
    if from + g < |plans| {
      FlattenFront(windows[1..]);
    }
  }

  lemma CouldTakeNext(windows: seq<Window>, first: Window, plans: seq<BlockPlan>, from: nat, limit: nat)
    requires windows != [] && from <= |plans| && IsSplit(windows, plans[from..], limit)
    requires |first| <= |plans| && first == plans[..|first|] && IsWindow(first, limit)
    requires from + |windows[0]| < |first|
    ensures |windows| > 1 && windows[1] != [] && CanTake(windows[0], windows[1][0], limit)
  {
    HeadOfSplit(windows, plans, from, limit);
    var next := from + |windows[0]|;
    assert Follows(first[next - 1], first[next]);
  }

  /** The greedy first window reaches at least as far as the other cut's first window. */
  lemma GreedyReaches(greedy: seq<Window>, first: Window, plans: seq<BlockPlan>, from: nat, limit: nat)
    requires greedy != [] && from < |first| <= |plans| && first == plans[..|first|] && IsWindow(first, limit)
    requires IsSplit(greedy, plans[from..], limit) && Maximal(greedy, limit)
    ensures from + |greedy[0]| >= |first|
  {
    if from + |greedy[0]| < |first| {
      CouldTakeNext(greedy, first, plans, from, limit);
    }
  }
}
