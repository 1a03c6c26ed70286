/**
 The pools of blocks: each block made is free or held by one call, and what failed calls hold never comes
 back. A pool is drained when it will never have a block to give again.
 */
module ClusterPools {
  import opened Bytes
  import opened Requests
  import opened Cluster
  import opened ClusterSafety
  import opened ClusterCalls
  import opened Sums

  // ----- counting

  predicate Holding(x: Get, p: nat)
  {
    Holds(x) && PoolOf(x) == p
  }

  /** A failed call, which keeps its block for good. */
  predicate Failing(x: Get, p: nat)
  {
    Holding(x, p) && x.faild
  }

  /** A call that makes a block for pool `p`, outside the pool's lock. */
  predicate InWindow(x: Get, p: nat)
  {
    x.phase.Routing? && x.making && PoolOf(x) == p
  }

  function HoldMarks(gets: seq<Get>, p: nat): (xs: seq<nat>)
  {
    seq(|gets|, g requires 0 <= g < |gets| => if Holding(gets[g], p) then 1 else 0)
  }

  function FailMarks(gets: seq<Get>, p: nat): (xs: seq<nat>)
  {
    seq(|gets|, g requires 0 <= g < |gets| => if Failing(gets[g], p) then 1 else 0)
  }

  /** How many calls hold a block of pool `p`. */
  function Holders(gets: seq<Get>, p: nat): (n: nat)
  {
    Sum(HoldMarks(gets, p))
  }

  /** How many of them have failed. */
  function Failures(gets: seq<Get>, p: nat): (n: nat)
  {
    Sum(FailMarks(gets, p))
  }

  ghost predicate NoneMaking(s: State, p: nat)
  {
    forall g :: 0 <= g < |s.gets| ==> !InWindow(s.gets[g], p)
  }

  /** The pool has made all it makes, failed calls hold every block, and no call is making another. */
  ghost predicate Drained(s: State, p: nat)
  {
    && p < |s.made| && POOL_BLOCKS <= s.made[p] <= Failures(s.gets, p)
    && NoneMaking(s, p)
  }

  ghost predicate PoolExact(s: State, p: nat)
    requires p < |s.free| == |s.made|
  {
    s.made[p] == |s.free[p]| + Holders(s.gets, p)
  }

  ghost predicate PoolsExact(s: State)
  {
    |s.free| == |s.made| && forall p: nat :: p < |s.free| ==> PoolExact(s, p)
  }

  lemma FailuresHold(gets: seq<Get>, p: nat)
    ensures Failures(gets, p) <= Holders(gets, p)
  {
    SumLess(HoldMarks(gets, p), FailMarks(gets, p));
  }

  // ----- every step keeps the count

  /** A step other than taking and giving back a block changes no call's hold, and a new call holds none. */
  ghost predicate SameHolds(s: State, s': State)
  {
    && |s.gets| <= |s'.gets| <= |s.gets| + 1
    && (forall g :: 0 <= g < |s.gets| ==>
          Holds(s'.gets[g]) == Holds(s.gets[g]) && PoolOf(s'.gets[g]) == PoolOf(s.gets[g]))
    && (|s.gets| < |s'.gets| ==> !Holds(s'.gets[|s.gets|]))
  }

  lemma JoinHolds(cfg: Config, s: State, step: Step)
    requires Enabled(cfg, s, step) && (step.Deliver? || step.Capture?)
    ensures SameHolds(s, Apply(cfg, s, step)) && SamePools(s, Apply(cfg, s, step))
  {
    if step.Deliver? {
      DeliverJoins(cfg, s, step.g, step.k);
    } else {
      CaptureStarts(cfg, s, step.node, step.reqs);
    }
  }

  lemma StepHolds(cfg: Config, s: State, step: Step)
    requires Enabled(cfg, s, step) && !step.Allocate? && !step.Succeed?
    ensures SameHolds(s, Apply(cfg, s, step)) && SamePools(s, Apply(cfg, s, step))
  {
    if MovesOne(step) {
      StepMoves(cfg, s, step);
    } else if step.Deliver? || step.Capture? {
      JoinHolds(cfg, s, step);
    } else if step.GiveUp? {
      GiveUpEnds(cfg, s, step.g);
    } else {
      SwitchHolds(cfg, s, step);
    }
  }

  lemma SwitchHolds(cfg: Config, s: State, step: Step)
    requires Enabled(cfg, s, step) && Switches(step)
    ensures SameHolds(s, Apply(cfg, s, step)) && SamePools(s, Apply(cfg, s, step))
  {
    SwitchContinues(cfg, s, step);
  }

  lemma SameHolders(s: State, s': State, p: nat)
    requires SameHolds(s, s')
    ensures Holders(s'.gets, p) == Holders(s.gets, p)
  {
    var n := |s.gets|;
    assert HoldMarks(s'.gets, p)[..n] == HoldMarks(s.gets, p);
    if n < |s'.gets| {
      assert HoldMarks(s'.gets, p) == HoldMarks(s.gets, p) + [0];
      SumSnoc(HoldMarks(s.gets, p), 0);
    } else {
      assert HoldMarks(s'.gets, p) == HoldMarks(s.gets, p);
    }
  }

  /** One call's hold changes. */
  lemma HolderChange(gets: seq<Get>, gets': seq<Get>, g: nat, p: nat)
    requires g < |gets| == |gets'|
    requires forall h :: 0 <= h < |gets| && h != g ==> Holding(gets'[h], p) == Holding(gets[h], p)
    ensures Holders(gets', p) + (if Holding(gets[g], p) then 1 else 0) ==
            Holders(gets, p) + (if Holding(gets'[g], p) then 1 else 0)
  {
    SumUpdate(HoldMarks(gets, p), HoldMarks(gets', p), g);
  }

  lemma AllocateExact(cfg: Config, s: State, g: nat, newBlock: Option<seq<Byte>>, p: nat)
    requires Enabled(cfg, s, Allocate(g, newBlock)) && p < |s.free| == |s.made| && PoolExact(s, p)
    ensures var s' := Apply(cfg, s, Allocate(g, newBlock));
            |s'.free| == |s'.made| == |s.free| && PoolExact(s', p)
  {
    AllocateMoves(cfg, s, g, newBlock);
    HolderChange(s.gets, Apply(cfg, s, Allocate(g, newBlock)).gets, g, p);
  }

  /** The reply a call's end sends on changes no hold. */
  lemma SucceedExact(cfg: Config, s: State, g: nat, p: nat)
    requires Enabled(cfg, s, Succeed(g)) && p < |s.free| == |s.made| && PoolExact(s, p)
    ensures var s' := Apply(cfg, s, Succeed(g));
            |s'.free| == |s'.made| == |s.free| && PoolExact(s', p)
  {
    SucceedEnds(cfg, s, g);
    HolderChange(s.gets, Apply(cfg, s, Succeed(g)).gets, g, p);
  }

  lemma StepExact(cfg: Config, s: State, step: Step)
    requires Enabled(cfg, s, step) && PoolsExact(s)
    ensures PoolsExact(Apply(cfg, s, step))
  {
    var s' := Apply(cfg, s, step);
    if !step.Allocate? && !step.Succeed? {
      StepHolds(cfg, s, step);
    }
    forall p: nat | p < |s.free|
      ensures |s'.free| == |s'.made| == |s.free| && PoolExact(s', p)
    {
      assert PoolExact(s, p);
      if step.Allocate? {
        AllocateExact(cfg, s, step.g, step.newBlock, p);
      } else if step.Succeed? {
        SucceedExact(cfg, s, step.g, p);
      } else {
        SameHolders(s, s', p);
      }
    }
    if s.free == [] {
      assert s'.free == [] && s'.made == [];
    }
  }

  /** In every reachable state the blocks a pool has made are the free ones and the held ones. */
  lemma {:induction false} RunsAreExact(cfg: Config, steps: seq<Step>)
    requires Legal(cfg, steps)
    ensures PoolsExact(Final(cfg, steps))
  {
    if steps == [] {
      forall p: nat | p < 2 * cfg.nodes
        ensures PoolExact(Initial(cfg), p)
      {
        assert HoldMarks(Initial(cfg).gets, p) == [];
      }
    } else {
      var n := |steps| - 1;
      RunsAreExact(cfg, steps[..n]);
      StepExact(cfg, Final(cfg, steps[..n]), steps[n]);
    }
  }

  // ----- what failed calls hold

  /** A call that has failed on its block has done so for good; only losses and short replies make one fail. */
  ghost predicate FailureKept(x: Get, y: Get, lossless: bool)
  {
    && PoolOf(y) == PoolOf(x)
    && (Holds(x) && x.faild ==> Holds(y) && y.faild)
    && (lossless && Holds(y) && y.faild ==> Holds(x) && x.faild)
  }

  ghost predicate FailuresKept(s: State, s': State, lossless: bool)
  {
    && |s.gets| <= |s'.gets| <= |s.gets| + 1
    && (forall g :: 0 <= g < |s.gets| ==> FailureKept(s.gets[g], s'.gets[g], lossless))
    && (|s.gets| < |s'.gets| ==> !Holds(s'.gets[|s.gets|]))
  }

  lemma AllocateFailures(cfg: Config, s: State, g: nat, newBlock: Option<seq<Byte>>)
    requires Enabled(cfg, s, Allocate(g, newBlock)) && GetOk(cfg, s.gets[g])
    ensures FailuresKept(s, Apply(cfg, s, Allocate(g, newBlock)), true)
  {
    AllocateMoves(cfg, s, g, newBlock);
  }

  lemma MoveFailures(cfg: Config, s: State, step: Step)
    requires Enabled(cfg, s, step) && MovesOne(step) && !step.Allocate?
    ensures FailuresKept(s, Apply(cfg, s, step), !step.Lose? && !step.Reject?)
  {
    StepMoves(cfg, s, step);
  }

  lemma SucceedFailures(cfg: Config, s: State, g: nat)
    requires Enabled(cfg, s, Succeed(g))
    ensures FailuresKept(s, Apply(cfg, s, Succeed(g)), true)
  {
    SucceedEnds(cfg, s, g);
  }

  lemma RestFailures(cfg: Config, s: State, step: Step)
    requires Enabled(cfg, s, step) && !MovesOne(step) && !step.Succeed?
    ensures FailuresKept(s, Apply(cfg, s, step), true)
  {
    StepHolds(cfg, s, step);
    OtherFailures(cfg, s, step);
  }

  lemma StepFailures(cfg: Config, s: State, step: Step)
    requires Enabled(cfg, s, step)
    requires step.Allocate? ==> GetOk(cfg, s.gets[step.g])
    ensures FailuresKept(s, Apply(cfg, s, step), !step.Lose? && !step.Reject?)
  {
    if step.Allocate? {
      AllocateFailures(cfg, s, step.g, step.newBlock);
    } else if MovesOne(step) {
      MoveFailures(cfg, s, step);
    } else if step.Succeed? {
      SucceedFailures(cfg, s, step.g);
    } else {
      RestFailures(cfg, s, step);
    }
  }

  lemma OtherFailures(cfg: Config, s: State, step: Step)
    requires Enabled(cfg, s, step) && !MovesOne(step) && !step.Succeed?
    ensures var s' := Apply(cfg, s, step);
            |s.gets| <= |s'.gets| && forall g :: 0 <= g < |s.gets| ==> s'.gets[g].faild == s.gets[g].faild
  {
    if step.Deliver? {
      DeliverJoins(cfg, s, step.g, step.k);
    } else if step.GiveUp? {
      GiveUpEnds(cfg, s, step.g);
    } else if step.Capture? {
      CaptureStarts(cfg, s, step.node, step.reqs);
    } else {
      SwitchContinues(cfg, s, step);
    }
  }

  lemma KeptFailures(s: State, s': State, lossless: bool, p: nat)
    requires FailuresKept(s, s', lossless)
    ensures Failures(s.gets, p) <= Failures(s'.gets, p)
    ensures lossless ==> Failures(s'.gets, p) == Failures(s.gets, p)
  {
    var n := |s.gets|;
    var before, after := FailMarks(s.gets, p), FailMarks(s'.gets, p);
    SumLess(after[..n], before);
    if n < |s'.gets| {
      assert after == after[..n] + [0];
      SumSnoc(after[..n], 0);
    } else {
      assert after == after[..n];
    }
    if lossless {
      assert before == after[..n];
    }
  }

  // ----- drained pools

  /** A call stays in the window until it takes its block, and enters it only by unlocking. */
  ghost predicate WindowKept(x: Get, y: Get, takes: bool, unlocks: bool)
  {
    && PoolOf(y) == PoolOf(x)
    && (x.phase.Routing? && x.making && !takes ==> y.phase.Routing? && y.making)
    && (y.phase.Routing? && y.making ==> x.phase.Routing? && (x.making || unlocks))
  }

  ghost predicate WindowsKept(s: State, s': State, step: Step)
  {
    && |s.gets| <= |s'.gets| <= |s.gets| + 1
    && (forall g :: 0 <= g < |s.gets| ==>
          WindowKept(s.gets[g], s'.gets[g], step.Allocate? && step.g == g, step.Unlock? && step.g == g))
    && (|s.gets| < |s'.gets| ==> !s'.gets[|s.gets|].making)
  }

  lemma MovedWindow(s: State, s': State, step: Step, g: nat)
    requires OneCall(s, s', g)
    requires WindowKept(s.gets[g], s'.gets[g], step.Allocate? && step.g == g, step.Unlock? && step.g == g)
    ensures WindowsKept(s, s', step)
  {
  }

  lemma StartWindow(cfg: Config, s: State, step: Step)
    requires Enabled(cfg, s, step) && (step.Unlock? || step.Allocate?)
    ensures WindowsKept(s, Apply(cfg, s, step), step)
  {
    if step.Unlock? {
      UnlockMoves(cfg, s, step.g);
    } else {
      AllocateMoves(cfg, s, step.g, step.newBlock);
    }
    MovedWindow(s, Apply(cfg, s, step), step, step.g);
  }

  lemma MoveWindow(cfg: Config, s: State, step: Step)
    requires Enabled(cfg, s, step) && MovesOne(step) && !step.Unlock? && !step.Allocate?
    ensures WindowsKept(s, Apply(cfg, s, step), step)
  {
    if step.RouteOne? {
      RouteMoves(cfg, s, step.g);
    } else if step.Push? {
      PushMoves(cfg, s, step.g);
    } else {
      TaskStepMoves(cfg, s, step);
    }
    MovedWindow(s, Apply(cfg, s, step), step, step.g);
  }

  lemma EndWindow(cfg: Config, s: State, step: Step)
    requires Enabled(cfg, s, step) && (step.Succeed? || step.GiveUp?)
    ensures WindowsKept(s, Apply(cfg, s, step), step)
  {
    if step.Succeed? {
      SucceedEnds(cfg, s, step.g);
    } else {
      GiveUpEnds(cfg, s, step.g);
    }
  }

  lemma JoinWindow(cfg: Config, s: State, step: Step)
    requires Enabled(cfg, s, step) && (step.Deliver? || step.Capture?)
    ensures WindowsKept(s, Apply(cfg, s, step), step)
  {
    if step.Deliver? {
      DeliverJoins(cfg, s, step.g, step.k);
    } else {
      CaptureStarts(cfg, s, step.node, step.reqs);
    }
  }

  lemma StepWindow(cfg: Config, s: State, step: Step)
    requires Enabled(cfg, s, step)
    ensures WindowsKept(s, Apply(cfg, s, step), step)
  {
    if step.Unlock? || step.Allocate? {
      StartWindow(cfg, s, step);
    } else if MovesOne(step) {
      MoveWindow(cfg, s, step);
    } else if step.Deliver? || step.Capture? {
      JoinWindow(cfg, s, step);
    } else if step.Succeed? || step.GiveUp? {
      EndWindow(cfg, s, step);
    } else {
      SwitchContinues(cfg, s, step);
    }
  }

  /** A pool's count of blocks only grows, and only by a call that was making one. */
  lemma StepMade(cfg: Config, s: State, step: Step, p: nat)
    requires Enabled(cfg, s, step) && p < |s.made|
    ensures var s' := Apply(cfg, s, step);
            && p < |s'.made| && s.made[p] <= s'.made[p]
            && (s'.made[p] != s.made[p] ==> step.Allocate? && step.newBlock.Some? && InWindow(s.gets[step.g], p))
            && (step.Allocate? && InWindow(s.gets[step.g], p) ==> s.made[p] < s'.made[p])
  {
    if step.Allocate? {
      AllocateMoves(cfg, s, step.g, step.newBlock);
    } else if step.Succeed? {
      SucceedEnds(cfg, s, step.g);
    } else {
      StepHolds(cfg, s, step);
    }
  }

  /** A drained pool stays drained. */
  lemma StepDrained(cfg: Config, s: State, step: Step, p: nat)
    requires Enabled(cfg, s, step) && Safe(cfg, s) && Drained(s, p)
    ensures Drained(Apply(cfg, s, step), p)
  {
    var s' := Apply(cfg, s, step);
    StepMade(cfg, s, step, p);
    StepWindow(cfg, s, step);
    if step.Unlock? {
      UnlockNotDrained(cfg, s, step.g, p);
    }
    NoneMakingKept(s, s', step, p);
    StepFailures(cfg, s, step);
    KeptFailures(s, s', !step.Lose? && !step.Reject?, p);
  }

  lemma UnlockNotDrained(cfg: Config, s: State, g: nat, p: nat)
    requires Enabled(cfg, s, Unlock(g)) && Drained(s, p)
    ensures PoolOf(s.gets[g]) != p
  {
  }

  lemma NoneMakingKept(s: State, s': State, step: Step, p: nat)
    requires NoneMaking(s, p) && WindowsKept(s, s', step)
    requires step.Unlock? && step.g < |s.gets| ==> PoolOf(s.gets[step.g]) != p
    ensures NoneMaking(s', p)
  {
    forall g | 0 <= g < |s'.gets|
      ensures !InWindow(s'.gets[g], p)
    {
      if g < |s.gets| {
        assert !InWindow(s.gets[g], p);
      }
    }
  }

  /** Without losses no pool gets drained. */
  lemma StepUndrained(cfg: Config, s: State, step: Step, p: nat)
    requires Enabled(cfg, s, step) && Safe(cfg, s) && PoolsExact(s) && p < |s.free|
    requires !step.Lose? && !step.Reject? && !Drained(s, p)
    ensures !Drained(Apply(cfg, s, step), p)
  {
    var s' := Apply(cfg, s, step);
    assert PoolExact(s, p);
    StepMade(cfg, s, step, p);
    StepFailures(cfg, s, step);
    KeptFailures(s, s', true, p);
    FailuresHold(s.gets, p);
    StepWindow(cfg, s, step);
    if !NoneMaking(s, p) {
      MakingKept(s, s', step, p);
    }
  }

  /** A call that makes a block goes on making it, or takes it. */
  lemma MakingKept(s: State, s': State, step: Step, p: nat)
    requires WindowsKept(s, s', step) && !NoneMaking(s, p)
    requires step.Allocate? && step.g < |s.gets| && InWindow(s.gets[step.g], p) ==> Grown(s, s', p)
    ensures !NoneMaking(s', p) || Grown(s, s', p)
  {
    var g :| 0 <= g < |s.gets| && InWindow(s.gets[g], p);
    assert InWindow(s'.gets[g], p) || Grown(s, s', p);
  }

  ghost predicate Grown(s: State, s': State, p: nat)
  {
    p < |s.made| && p < |s'.made| && s.made[p] < s'.made[p]
  }

  /** A drained pool has no block to give and makes no more. */
  lemma DrainedShut(cfg: Config, s: State, g: nat, step: Step)
    requires PoolsExact(s) && g < |s.gets| && Drained(s, PoolOf(s.gets[g]))
    requires (step.Unlock? || step.Allocate?) && step.g == g
    ensures !Enabled(cfg, s, step)
  {
    var p := PoolOf(s.gets[g]);
    if p < |s.free| {
      assert PoolExact(s, p);
      FailuresHold(s.gets, p);
    }
    assert !InWindow(s.gets[g], p);
  }

  /** Who has, or is making, a block of a pool at its limit that is not drained. */
  lemma LivingHolder(s: State, p: nat) returns (h: nat)
    requires PoolsExact(s) && p < |s.free| && s.free[p] == [] && s.made[p] >= POOL_BLOCKS
    requires !Drained(s, p)
    ensures h < |s.gets| && (InWindow(s.gets[h], p) || (Holding(s.gets[h], p) && !s.gets[h].faild))
  {
    assert PoolExact(s, p);
    if NoneMaking(s, p) {
      h := SumDiffers(HoldMarks(s.gets, p), FailMarks(s.gets, p));
    } else {
      h :| 0 <= h < |s.gets| && InWindow(s.gets[h], p);
    }
  }
}
