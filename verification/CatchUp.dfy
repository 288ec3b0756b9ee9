/** Catch-up: the reported lag, how far one completed poll brings each monitor, how many polls a fixed
    head takes, and the bound below which cached blocks may go. */
module CatchUp {
  import opened Domain
  import opened Scheduler
  import opened Protocol
  import opened ProtocolProofs

  /** The last block a monitor can reach while the finalized head is `head`. */
  function TargetBlock(m: Monitor, head: U64): U64 {
    Min(match m.end case Some(end) => end case None => head, head)
  }

  /** How many blocks from the next one up to the target are still to be indexed. */
  function Remaining(m: Monitor, cursor: Option<U64>, head: U64): nat {
    var next := if cursor.Some? then cursor.value + 1 else m.start;
    if next <= TargetBlock(m, head) then TargetBlock(m, head) - next + 1 else 0
  }

  // ---- The reported lag ----

  /** The per-monitor lag as the worker computes it, with saturating arithmetic. */
  function LagOf(m: Monitor, cursor: Option<U64>, head: U64): U64 {
    match cursor
    case Some(c) => SaturatingSub(TargetBlock(m, head), c)
    case None =>
      if m.start <= TargetBlock(m, head) then SaturatingAdd(SaturatingSub(TargetBlock(m, head), m.start), 1) else 0
  }

  /** The computed lag counts the remaining blocks, unless a monitor that never progressed has all of
      the 2^64 block numbers ahead of it. */
  lemma LagCountsRemaining(m: Monitor, cursor: Option<U64>, head: U64)
    ensures LagOf(m, cursor, head) == Remaining(m, cursor, head) <==>
            !(cursor.None? && m.start == 0 && TargetBlock(m, head) == U64_MAX)
  {
  }

  /** The one input at which it fails: a monitor a user may create, fresh, and the greatest head there is.
      The saturated lag is one less than the blocks to index. */
  lemma LagUndercountsOnce() returns (m: Monitor, head: U64)
    ensures WellDefined(m) && m == Definition(m) && m.start == 0 && head == U64_MAX
    ensures LagOf(m, m.cursor, head) == U64_MAX && Remaining(m, m.cursor, head) == U64_MAX + 1
  {
    head := U64_MAX;
    m := Monitor(0, 0, CallTarget(seq(20, _ => 0), [0, 0, 0, 0], []), 0, None, None, false, true, All);
  }

  /** `top` is the greatest of the first `n` monitors' counts, zero for none. */
  ghost predicate IsGreatest(top: nat, active: seq<Monitor>, counts: nat -> nat, n: nat)
    requires n <= |active|
  {
    && (forall j: nat :: j < n ==> counts(j) <= top)
    && (n == 0 ==> top == 0)
    && (n > 0 ==> exists j: nat :: j < n && counts(j) == top)
  }

  function LagAt(active: seq<Monitor>, progress: seq<Option<U64>>, head: U64): nat -> nat
    requires |active| == |progress|
  {
    (j: nat) => if j < |active| then LagOf(active[j], progress[j], head) else 0
  }

  function RemainingAt(active: seq<Monitor>, progress: seq<Option<U64>>, head: U64): nat -> nat
    requires |active| == |progress|
  {
    (j: nat) => if j < |active| then Remaining(active[j], progress[j], head) else 0
  }

  method ReportLag(active: seq<Monitor>, progress: seq<Option<U64>>, head: U64) returns (lag: U64)
    requires |active| == |progress|
    ensures IsGreatest(lag, active, LagAt(active, progress, head), |active|)
  {
    lag := 0;
    for j := 0 to |active|
      invariant IsGreatest(lag, active, LagAt(active, progress, head), j)
    {
      var one := LagOf(active[j], progress[j], head);
      assert LagAt(active, progress, head)(j) == one;
      if j == 0 || one > lag {
        lag := one;
      }
    }
  }

  // ---- What one completed poll does ----

  /** Where a completed poll leaves a monitor's cursor. */
  function CursorAfterPoll(m: Monitor, head: U64, batch: U64): Option<U64>
    requires batch >= 1
  {
    if Remaining(m, m.cursor, head) == 0 then m.cursor else Some(LastBlock(m, head, batch))
  }

  lemma {:induction false} ProgressInShare(active: seq<Monitor>, head: U64, batch: U64, plans: seq<BlockPlan>, done: nat, j: nat)
    requires batch >= 1 && IsPlan(active, head, batch, plans) && done <= |plans| && j < |active|
    ensures var progress := ProgressAt(active, plans, done, j);
            progress == active[j].cursor || (progress.Some? && InShare(active[j], head, batch, progress.value))
  {
    if done == 0 {
    } else {
      ProgressInShare(active, head, batch, plans, done - 1, j);
      assert PlanOf(active, head, batch, plans[done - 1]);
    }
  }

  lemma WholePlanPasses(active: seq<Monitor>, head: U64, batch: U64, plans: seq<BlockPlan>, j: nat, block: U64)
    requires batch >= 1 && IsPlan(active, head, batch, plans) && j < |active| && SoundCursor(active[j])
    requires InShare(active[j], head, batch, block)
    ensures var progress := ProgressAt(active, plans, |plans|, j);
            progress.Some? && block <= progress.value
  {
    ProgressIsPrefix(active, head, batch, plans, |plans|, j, block);
    assert HasBlock(plans, block);
    var k :| 0 <= k < |plans| && plans[k].block == block;
  }

  lemma EndOfShare(m: Monitor, head: U64, batch: U64, progress: Option<U64>)
    requires batch >= 1 && SoundCursor(m)
    requires progress == m.cursor || (progress.Some? && InShare(m, head, batch, progress.value))
    requires InShare(m, head, batch, LastBlock(m, head, batch)) ==> progress.Some? && LastBlock(m, head, batch) <= progress.value
    ensures progress == CursorAfterPoll(m, head, batch)
  {
  }

  /** Once every plan is committed, each monitor stands at the end of its share. */
  lemma CompletedPollReaches(active: seq<Monitor>, head: U64, batch: U64, plans: seq<BlockPlan>, j: nat)
    requires batch >= 1 && IsPlan(active, head, batch, plans) && j < |active| && SoundCursor(active[j])
    ensures ProgressAt(active, plans, |plans|, j) == CursorAfterPoll(active[j], head, batch)
  {
    var last := LastBlock(active[j], head, batch);
    ProgressInShare(active, head, batch, plans, |plans|, j);
    if InShare(active[j], head, batch, last) {
      WholePlanPasses(active, head, batch, plans, j, last);
    }
    EndOfShare(active[j], head, batch, ProgressAt(active, plans, |plans|, j));
  }

  /** A completed poll lowers each monitor's count by exactly `min(batch, count)`. */
  lemma PollLowersRemaining(m: Monitor, head: U64, batch: U64)
    requires batch >= 1 && SoundCursor(m)
    ensures var before := Remaining(m, m.cursor, head);
            Remaining(m, CursorAfterPoll(m, head, batch), head) == before - Min(batch, before)
  {
  }

  /** After a completed poll no count saturates: every monitor that had blocks has a cursor. */
  lemma CompletedPollReportsExactly(active: seq<Monitor>, head: U64, batch: U64, plans: seq<BlockPlan>, j: nat)
    requires batch >= 1 && IsPlan(active, head, batch, plans) && j < |active| && SoundCursor(active[j])
    ensures var progress := ProgressAt(active, plans, |plans|, j);
            && LagOf(active[j], progress, head) == Remaining(active[j], progress, head)
            && (progress.None? ==> active[j].start > TargetBlock(active[j], head))
  {
    CompletedPollReaches(active, head, batch, plans, j);
    LagCountsRemaining(active[j], ProgressAt(active, plans, |plans|, j), head);
  }

  // ---- Reaching a fixed head ----

  /** The cursor after `polls` completed polls against the same head. */
  function CursorAfter(m: Monitor, head: U64, batch: U64, polls: nat): Option<U64>
    requires batch >= 1
  {
    if polls == 0 then m.cursor
    else CursorAfterPoll(m.(cursor := CursorAfter(m, head, batch, polls - 1)), head, batch)
  }

  lemma OneMorePoll(before: nat, batch: nat, polls: nat)
    requires polls >= 1
    ensures var left := before - Min((polls - 1) * batch, before);
            left >= 0 && left - Min(batch, left) == before - Min(polls * batch, before)
  {
    assert polls * batch == (polls - 1) * batch + batch;
    assert (polls - 1) * batch >= 0;
  }

  lemma {:induction false} PollsKeepSoundCursor(m: Monitor, head: U64, batch: U64, polls: nat)
    requires batch >= 1 && SoundCursor(m) && head <= I64_MAX
    ensures SoundCursor(m.(cursor := CursorAfter(m, head, batch, polls)))
  {
    if polls == 0 {
    } else {
      PollsKeepSoundCursor(m, head, batch, polls - 1);
    }
  }

  lemma {:induction false} PollsLowerRemaining(m: Monitor, head: U64, batch: U64, polls: nat)
    requires batch >= 1 && SoundCursor(m) && head <= I64_MAX
    ensures var before := Remaining(m, m.cursor, head);
            Remaining(m, CursorAfter(m, head, batch, polls), head) == before - Min(polls * batch, before)
  {
    if polls == 0 {
    } else {
      PollsLowerRemaining(m, head, batch, polls - 1);
      PollsKeepSoundCursor(m, head, batch, polls - 1);
      var reached := m.(cursor := CursorAfter(m, head, batch, polls - 1));
      PollLowersRemaining(reached, head, batch);
      assert Remaining(reached, reached.cursor, head) == Remaining(m, reached.cursor, head);
      OneMorePoll(Remaining(m, m.cursor, head), batch, polls);
    }
  }

  function CeilingOf(count: nat, batch: nat): nat
    requires batch >= 1
  {
    (count + batch - 1) / batch
  }

  lemma CeilingCovers(count: nat, batch: nat, polls: nat)
    requires batch >= 1
    ensures polls * batch >= count <==> polls >= CeilingOf(count, batch)
  {
    var q := CeilingOf(count, batch);
    var r := (count + batch - 1) % batch;
    assert q * batch + r == count + batch - 1;
    if polls >= q {
      assert polls * batch >= q * batch by { assert (polls - q) * batch >= 0; }
    } else {
      assert (q - 1 - polls) * batch >= 0;
      assert polls * batch == (q - 1) * batch - (q - 1 - polls) * batch;
      assert (q - 1) * batch == q * batch - batch;
    }
  }

  /** A fixed head is reached by every monitor in exactly ceil(max count / batch) completed polls. */
  lemma HeadReached(active: seq<Monitor>, head: U64, batch: U64, polls: nat, top: nat)
    requires batch >= 1 && head <= I64_MAX
    requires forall m :: m in active ==> SoundCursor(m)
    requires IsGreatest(top, active, RemainingAt(active, seq(|active|, (j: nat) requires j < |active| => active[j].cursor), head), |active|)
    ensures (forall m :: m in active ==> Remaining(m, CursorAfter(m, head, batch, polls), head) == 0) <==>
            polls >= CeilingOf(top, batch)
  {
    var counts := RemainingAt(active, seq(|active|, (j: nat) requires j < |active| => active[j].cursor), head);
    forall j: nat | j < |active|
      ensures counts(j) == Remaining(active[j], active[j].cursor, head) <= top
      ensures Remaining(active[j], CursorAfter(active[j], head, batch, polls), head) == 0 <==> polls * batch >= counts(j)
    {
      assert active[j] in active;
      PollsLowerRemaining(active[j], head, batch, polls);
    }
    CeilingCovers(top, batch, polls);
    if |active| > 0 {
      var j: nat :| j < |active| && counts(j) == top;
      assert active[j] in active;
    }
  }

  // ---- Eviction ----

  /** The least next block over all active monitors. */
  method EvictionBound(active: seq<Monitor>, progress: seq<Option<U64>>) returns (bound: Option<U64>)
    requires |active| == |progress|
    ensures bound.None? <==> active == []
    ensures bound.Some? ==> forall j :: 0 <= j < |active| ==> bound.value <= CursorNext(progress[j], active[j].start)
    ensures bound.Some? ==> exists j :: 0 <= j < |active| && bound.value == CursorNext(progress[j], active[j].start)
  {
    bound := None;
    for j := 0 to |active|
      invariant bound.None? <==> j == 0
      invariant bound.Some? ==> forall i :: 0 <= i < j ==> bound.value <= CursorNext(progress[i], active[i].start)
      invariant bound.Some? ==> exists i :: 0 <= i < j && bound.value == CursorNext(progress[i], active[i].start)
    {
      var next := CursorNext(progress[j], active[j].start);
      if bound.None? || next < bound.value {
        bound := Some(next);
      }
    }
  }
}
