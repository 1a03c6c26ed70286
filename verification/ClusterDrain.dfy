/**
 Losses drain a pool: as failed calls keep their blocks, enough lost tasks on one node leave its next
 client waiting for ever.
 */
module ClusterDrain {
  import opened Bytes
  import opened Requests
  import opened Sharding
  import opened Sums
  import opened Cluster
  import opened ClusterSafety
  import opened ClusterPools
  import opened ClusterProgress
  import opened ClusterRoutes
  import opened ClusterReads
  import opened ClusterSwitches

  /** Every node serves `m`, and the pool of node `i`'s service has made `n` blocks, all held by failed calls. */
  ghost predicate Draining(cfg: Config, s: State, m: Name, i: nat, n: nat)
  {
    && Sound(cfg, s) && |s.nodes| == cfg.nodes && AllLoaded(s) && i < cfg.nodes
    && (forall k: nat :: k < cfg.nodes ==> ServesRouted(cfg, s, k, m))
    && (forall g :: 0 <= g < |s.gets| ==> s.gets[g].name == m && s.gets[g].parent.None?)
    && (forall g :: 0 <= g < |s.gets| ==> Started(s.gets[g]))
    && s.made[2 * i] == n && Failures(s.gets, 2 * i) == n
  }

  /** A request for a slice that node `i` sends to another node. */
  predicate SentAway(cfg: Config, m: Name, i: nat, j: nat, p: nat)
  {
    && Servable(cfg, m) && i < cfg.nodes && j != i && p < TWO_31 && PerNode(|cfg.files[m]|, cfg.nodes) > 0
    && NodeForSlice(PerNode(|cfg.files[m]|, cfg.nodes), cfg.nodes, p) == j
  }

  lemma OneBucket(j: nat)
    ensures Indices([j], j) == [0]
  {
    var route := [j];
    assert route[..0] == [];
    assert Indices(route[..0], j) == [];
  }

  // ----- one call, up to its loss

  lemma TakeStep(cfg: Config, steps: seq<Step>, s: State, step: Step) returns (steps': seq<Step>)
    requires Reaches(cfg, steps, s) && AllLoaded(s) && Enabled(cfg, s, step)
    ensures Reaches(cfg, steps', Apply(cfg, s, step))
  {
    AllLoadedSheltered(cfg, s);
    ReachNext(cfg, steps, s, step);
    steps' := steps + [step];
  }

  /** The last call is about to add one to the `n` failed ones; the pool has made `made` blocks. */
  ghost predicate Losing(cfg: Config, s: State, m: Name, i: nat, n: nat, made: nat)
  {
    && |s.nodes| == cfg.nodes && |s.free| == |s.made| == 2 * cfg.nodes && AllLoaded(s) && i < cfg.nodes
    && (forall k: nat :: k < cfg.nodes ==> ServesRouted(cfg, s, k, m))
    && (forall g :: 0 <= g < |s.gets| ==> s.gets[g].name == m && s.gets[g].parent.None?)
    && s.gets != [] && s.gets[|s.gets| - 1].node == i && s.free[2 * i] == []
    && (forall g :: 0 <= g < |s.gets| - 1 ==> Started(s.gets[g]))
    && s.made[2 * i] == made && Failures(s.gets[..|s.gets| - 1], 2 * i) == n
  }

  /** Only the last call and the count of blocks differ. */
  ghost predicate LastMoved(s: State, s': State, x: Get)
  {
    && s.gets != [] && s'.gets == s.gets[|s.gets| - 1 := x]
    && s'.nodes == s.nodes && s'.handlers == s.handlers && s'.free == s.free && |s'.made| == |s.made|
    && var y := s.gets[|s.gets| - 1];
       x.name == y.name && x.parent == y.parent && x.node == y.node
  }

  lemma StillLosing(cfg: Config, s: State, s': State, m: Name, i: nat, n: nat, made: nat, x: Get)
    requires Losing(cfg, s, m, i, n, made) && LastMoved(s, s', x)
    ensures Losing(cfg, s', m, i, n, s'.made[2 * i])
  {
    assert s'.gets[..|s'.gets| - 1] == s.gets[..|s.gets| - 1];
    forall k: nat | k < cfg.nodes
      ensures ServesRouted(cfg, s', k, m)
    {
      assert ServesRouted(cfg, s, k, m);
    }
  }

  /** The failed calls hold every block, so none is free. */
  lemma NoneFree(cfg: Config, s: State, m: Name, i: nat, n: nat)
    requires Draining(cfg, s, m, i, n)
    ensures s.free[2 * i] == []
  {
    assert PoolExact(s, 2 * i);
    FailuresHold(s.gets, 2 * i);
  }

  lemma CaptureCall(cfg: Config, s: State, m: Name, i: nat, n: nat, req: SliceRequest)
    requires Draining(cfg, s, m, i, n) && Admissible([req])
    ensures Enabled(cfg, s, Capture(i, [req]))
    ensures var s' := Apply(cfg, s, Capture(i, [req]));
            && Losing(cfg, s', m, i, n, n)
            && var x := s'.gets[|s'.gets| - 1]; x == NewGet(i, m, x.handler, None, [req])
  {
    NoneFree(cfg, s, m, i, n);
    assert ServesRouted(cfg, s, i, m);
    var s' := Apply(cfg, s, Capture(i, [req]));
    assert s'.gets[..|s'.gets| - 1] == s.gets;
    forall k: nat | k < cfg.nodes
      ensures ServesRouted(cfg, s', k, m)
    {
      assert ServesRouted(cfg, s, k, m);
    }
  }

  lemma RouteCall(cfg: Config, s: State, m: Name, i: nat, j: nat, p: nat, n: nat)
    requires Losing(cfg, s, m, i, n, n) && SentAway(cfg, m, i, j, p)
    requires var x := s.gets[|s.gets| - 1]; x == NewGet(i, m, x.handler, None, [SliceRequest(p, 0, 0)])
    ensures var g := |s.gets| - 1;
            && Enabled(cfg, s, RouteOne(g))
            && Losing(cfg, Apply(cfg, s, RouteOne(g)), m, i, n, n)
            && Apply(cfg, s, RouteOne(g)).gets[g] == s.gets[g].(route := [j])
            && |Apply(cfg, s, RouteOne(g)).gets| == |s.gets|
  {
    var g := |s.gets| - 1;
    assert ServesRouted(cfg, s, i, m);
    assert s.gets[g].route + [j] == [j];
    StillLosing(cfg, s, Apply(cfg, s, RouteOne(g)), m, i, n, n, s.gets[g].(route := [j]));
  }

  /** The call leaves the lock to make a block. */
  lemma UnlockCall(cfg: Config, s: State, m: Name, i: nat, n: nat)
    requires Losing(cfg, s, m, i, n, n) && n < POOL_BLOCKS
    requires var x := s.gets[|s.gets| - 1];
             x.phase.Routing? && |x.route| == |x.reqs| && !x.making && x.parent.None?
    ensures var g := |s.gets| - 1;
            && Enabled(cfg, s, Unlock(g)) && |Apply(cfg, s, Unlock(g)).gets| == |s.gets|
            && Losing(cfg, Apply(cfg, s, Unlock(g)), m, i, n, n)
            && Apply(cfg, s, Unlock(g)).gets[g] == s.gets[g].(making := true)
  {
    var g := |s.gets| - 1;
    StillLosing(cfg, s, Apply(cfg, s, Unlock(g)), m, i, n, n, s.gets[g].(making := true));
  }

  lemma BlockCall(cfg: Config, s: State, m: Name, i: nat, j: nat, n: nat) returns (step: Step)
    requires Losing(cfg, s, m, i, n, n) && j < cfg.nodes
    requires var x := s.gets[|s.gets| - 1];
             x.phase.Routing? && x.route == [j] && |x.reqs| == 1 && x.making && !x.faild
    ensures Enabled(cfg, s, step)
    ensures var s' := Apply(cfg, s, step);
            && Losing(cfg, s', m, i, n, n + 1) && |s'.gets| == |s.gets|
            && var x := s'.gets[|s'.gets| - 1];
               x.phase == Pushing(0) && j < |x.tasks| && x.tasks[j].ix != [] && !x.faild
  {
    var g := |s.gets| - 1;
    step := Allocate(g, Some(seq(BLOCK_SIZE, _ => 0)));
    OneBucket(j);
    var s' := Apply(cfg, s, step);
    StillLosing(cfg, s, s', m, i, n, n, s'.gets[g]);
  }

  lemma PushCall(cfg: Config, s: State, m: Name, i: nat, j: nat, n: nat)
    requires Losing(cfg, s, m, i, n, n + 1) && i != j
    requires var x := s.gets[|s.gets| - 1];
             x.phase.Pushing? && x.phase.next <= j < |x.tasks| && x.tasks[j].ix != [] && !x.faild
    ensures var g := |s.gets| - 1;
            && Enabled(cfg, s, Push(g)) && |Apply(cfg, s, Push(g)).gets| == |s.gets|
            && Losing(cfg, Apply(cfg, s, Push(g)), m, i, n, n + 1)
            && var x, y := s.gets[g], Apply(cfg, s, Push(g)).gets[g];
               && j < |y.tasks| && y.tasks[j].ix != [] && !y.faild && (y.phase.Pushing? || y.phase.Waiting?)
               && (if x.phase.next == j then y.tasks[j].stage.Sent? else y.phase == Pushing(x.phase.next + 1))
  {
    var g := |s.gets| - 1;
    StillLosing(cfg, s, Apply(cfg, s, Push(g)), m, i, n, n + 1, Pushed(s.gets[g]));
  }

  lemma LoseCall(cfg: Config, s: State, m: Name, i: nat, j: nat, n: nat)
    requires Losing(cfg, s, m, i, n, n + 1)
    requires var x := s.gets[|s.gets| - 1];
             (x.phase.Pushing? || x.phase.Waiting?) && j < |x.tasks| && x.tasks[j].stage.Sent?
    ensures Enabled(cfg, s, Lose(|s.gets| - 1, j))
    ensures Losing(cfg, Apply(cfg, s, Lose(|s.gets| - 1, j)), m, i, n, n + 1)
    ensures var s' := Apply(cfg, s, Lose(|s.gets| - 1, j)); Failing(s'.gets[|s'.gets| - 1], 2 * i)
  {
    var g := |s.gets| - 1;
    var s' := Apply(cfg, s, Lose(g, j));
    StillLosing(cfg, s, s', m, i, n, n + 1, s'.gets[g]);
  }

  /** The last call has failed too. */
  lemma OneLost(cfg: Config, s: State, m: Name, i: nat, n: nat)
    requires Sound(cfg, s) && Losing(cfg, s, m, i, n, n + 1) && Failing(s.gets[|s.gets| - 1], 2 * i)
    ensures Draining(cfg, s, m, i, n + 1)
  {
    var g := |s.gets| - 1;
    assert s.gets == s.gets[..g] + [s.gets[g]];
    OneMoreFailure(s.gets[..g], s.gets[g], 2 * i);
  }

  lemma OneMoreFailure(gets: seq<Get>, x: Get, p: nat)
    requires Failing(x, p)
    ensures Failures(gets + [x], p) == Failures(gets, p) + 1
  {
    assert FailMarks(gets + [x], p) == FailMarks(gets, p) + [1];
    SumSnoc(FailMarks(gets, p), 1);
  }

  // ----- the run, one step and then the rest

  /** One more call fails on the pool. */
  lemma LoseOne(cfg: Config, steps: seq<Step>, s: State, m: Name, i: nat, j: nat, p: nat, n: nat)
    returns (steps': seq<Step>, s': State)
    requires Reaches(cfg, steps, s) && Draining(cfg, s, m, i, n) && n < POOL_BLOCKS && SentAway(cfg, m, i, j, p)
    ensures Reaches(cfg, steps', s') && Draining(cfg, s', m, i, n + 1)
  {
    var req := SliceRequest(p, 0, 0);
    assert Pos([req], 1) == 0;
    CaptureCall(cfg, s, m, i, n, req);
    var steps1 := TakeStep(cfg, steps, s, Capture(i, [req]));
    steps', s' := LoseCaptured(cfg, steps1, Apply(cfg, s, Capture(i, [req])), m, i, j, p, n);
  }

  lemma LoseCaptured(cfg: Config, steps: seq<Step>, s: State, m: Name, i: nat, j: nat, p: nat, n: nat)
    returns (steps': seq<Step>, s': State)
    requires Reaches(cfg, steps, s) && Losing(cfg, s, m, i, n, n) && n < POOL_BLOCKS && SentAway(cfg, m, i, j, p)
    requires var x := s.gets[|s.gets| - 1]; x == NewGet(i, m, x.handler, None, [SliceRequest(p, 0, 0)])
    ensures Reaches(cfg, steps', s') && Draining(cfg, s', m, i, n + 1)
  {
    var g := |s.gets| - 1;
    RouteCall(cfg, s, m, i, j, p, n);
    var steps1 := TakeStep(cfg, steps, s, RouteOne(g));
    steps', s' := LoseRouted(cfg, steps1, Apply(cfg, s, RouteOne(g)), m, i, j, n);
  }

  lemma LoseRouted(cfg: Config, steps: seq<Step>, s: State, m: Name, i: nat, j: nat, n: nat)
    returns (steps': seq<Step>, s': State)
    requires Reaches(cfg, steps, s) && Losing(cfg, s, m, i, n, n) && n < POOL_BLOCKS && j < cfg.nodes && i != j
    requires var x := s.gets[|s.gets| - 1];
             x.phase.Routing? && x.route == [j] && |x.reqs| == 1 && !x.making && !x.faild
    ensures Reaches(cfg, steps', s') && Draining(cfg, s', m, i, n + 1)
  {
    var g := |s.gets| - 1;
    UnlockCall(cfg, s, m, i, n);
    var steps1 := TakeStep(cfg, steps, s, Unlock(g));
    steps', s' := LoseMaking(cfg, steps1, Apply(cfg, s, Unlock(g)), m, i, j, n);
  }

  lemma LoseMaking(cfg: Config, steps: seq<Step>, s: State, m: Name, i: nat, j: nat, n: nat)
    returns (steps': seq<Step>, s': State)
    requires Reaches(cfg, steps, s) && Losing(cfg, s, m, i, n, n) && j < cfg.nodes && i != j
    requires var x := s.gets[|s.gets| - 1];
             x.phase.Routing? && x.route == [j] && |x.reqs| == 1 && x.making && !x.faild
    ensures Reaches(cfg, steps', s') && Draining(cfg, s', m, i, n + 1)
  {
    var step := BlockCall(cfg, s, m, i, j, n);
    var steps1 := TakeStep(cfg, steps, s, step);
    steps', s' := LosePushed(cfg, steps1, Apply(cfg, s, step), m, i, j, n);
  }

  /** Hands out tasks until task `j` is on the wire, where it is lost. */
  lemma {:induction false} LosePushed(cfg: Config, steps: seq<Step>, s: State, m: Name, i: nat, j: nat, n: nat)
    returns (steps': seq<Step>, s': State)
    requires Reaches(cfg, steps, s) && Losing(cfg, s, m, i, n, n + 1) && i != j
    requires var x := s.gets[|s.gets| - 1];
             x.phase.Pushing? && x.phase.next <= j < |x.tasks| && x.tasks[j].ix != [] && !x.faild
    ensures Reaches(cfg, steps', s') && Draining(cfg, s', m, i, n + 1)
    decreases j - s.gets[|s.gets| - 1].phase.next
  {
    var g := |s.gets| - 1;
    PushCall(cfg, s, m, i, j, n);
    var steps1 := TakeStep(cfg, steps, s, Push(g));
    var s1 := Apply(cfg, s, Push(g));
    if s.gets[g].phase.next < j {
      steps', s' := LosePushed(cfg, steps1, s1, m, i, j, n);
    } else {
      steps', s' := LoseSent(cfg, steps1, s1, m, i, j, n);
    }
  }

  lemma LoseSent(cfg: Config, steps: seq<Step>, s: State, m: Name, i: nat, j: nat, n: nat)
    returns (steps': seq<Step>, s': State)
    requires Reaches(cfg, steps, s) && Losing(cfg, s, m, i, n, n + 1)
    requires var x := s.gets[|s.gets| - 1];
             (x.phase.Pushing? || x.phase.Waiting?) && j < |x.tasks| && x.tasks[j].stage.Sent?
    ensures Reaches(cfg, steps', s') && Draining(cfg, s', m, i, n + 1)
  {
    var g := |s.gets| - 1;
    LoseCall(cfg, s, m, i, j, n);
    steps' := TakeStep(cfg, steps, s, Lose(g, j));
    s' := Apply(cfg, s, Lose(g, j));
    ReachSound(cfg, steps', s');
    OneLost(cfg, s', m, i, n);
  }

  lemma {:induction false} LoseMany(cfg: Config, m: Name, i: nat, j: nat, p: nat, n: nat)
    returns (steps: seq<Step>, s: State)
    requires SentAway(cfg, m, i, j, p) && n <= POOL_BLOCKS
    ensures Reaches(cfg, steps, s) && Draining(cfg, s, m, i, n)
  {
    if n == 0 {
      steps, s := InstallEverywhere(cfg, m);
      ReachSound(cfg, steps, s);
      assert FailMarks(s.gets, 2 * i) == [];
    } else {
      var steps1, s1 := LoseMany(cfg, m, i, j, p, n - 1);
      steps, s := LoseOne(cfg, steps1, s1, m, i, j, p, n - 1);
    }
  }

  lemma DrainingReaches(cfg: Config, s: State, m: Name, i: nat, n: nat)
    requires Draining(cfg, s, m, i, n)
    ensures PoolReach(cfg, s, 2 * i)
  {
    forall g | 0 <= g < |s.gets| && Client(s, g) && PoolOf(s.gets[g]) == 2 * i
      ensures Reaching(cfg, s, g)
    {
      assert GetOk(cfg, s.gets[g]);
      forall r: nat, j: nat | GoesTo(cfg, s, s.gets[g], r, j)
        ensures j < |s.nodes| && m in s.nodes[j].table
      {
        assert j < cfg.nodes;
        assert ServesRouted(cfg, s, j, m);
      }
    }
  }

  /**
   In every cluster with a model and a slice that node `i` sends elsewhere, there is a calm run after which
   every node serves the model, and a client's new call at `i`, of which nothing was lost, never returns.
   */
  lemma LossesDrainPool(cfg: Config, m: Name, i: nat, j: nat, p: nat) returns (steps: seq<Step>, g: nat)
    requires SentAway(cfg, m, i, j, p)
    ensures Legal(cfg, steps) && forall k: nat :: CalmRun(cfg, steps, k)
    ensures PoolReach(cfg, Final(cfg, steps), 2 * i)
    ensures FreshCall(cfg, Final(cfg, steps), m, i, g)
    ensures forall more :: !ReturnsIn(cfg, steps + more, g)
  {
    var steps1, s1 := LoseMany(cfg, m, i, j, p, POOL_BLOCKS);
    var s2;
    steps, s2, g := LastCall(cfg, steps1, s1, m, i);
    EndsUnlessStarved(cfg, steps, g);
  }

  /** A client's call that has just started at node `i`, where every node serves `m`. */
  ghost predicate FreshCall(cfg: Config, s: State, m: Name, i: nat, g: nat)
  {
    && (forall k: nat :: k < cfg.nodes ==> Serves(s, k, m))
    && g < |s.gets| && Client(s, g) && Unfailed(s.gets[g]) && s.gets[g].node == i
  }

  lemma LastCall(cfg: Config, steps: seq<Step>, s: State, m: Name, i: nat)
    returns (steps': seq<Step>, s': State, g: nat)
    requires Reaches(cfg, steps, s) && Draining(cfg, s, m, i, POOL_BLOCKS)
    ensures Reaches(cfg, steps', s') && PoolReach(cfg, s', 2 * i) && FreshCall(cfg, s', m, i, g) && Starved(s', g)
  {
    LastState(cfg, s, m, i);
    steps' := TakeStep(cfg, steps, s, Capture(i, []));
    s', g := Apply(cfg, s, Capture(i, [])), |s.gets|;
  }

  lemma LastState(cfg: Config, s: State, m: Name, i: nat)
    requires Draining(cfg, s, m, i, POOL_BLOCKS)
    ensures Enabled(cfg, s, Capture(i, []))
    ensures var s' := Apply(cfg, s, Capture(i, []));
            PoolReach(cfg, s', 2 * i) && FreshCall(cfg, s', m, i, |s.gets|) && Starved(s', |s.gets|)
  {
    assert ServesRouted(cfg, s, i, m);
    var s' := Apply(cfg, s, Capture(i, []));
    StepDrained(cfg, s, Capture(i, []), 2 * i);
    DrainingReaches(cfg, s, m, i, POOL_BLOCKS);
    EmptyCallReaches(cfg, s, s', s'.gets[|s.gets|], 2 * i);
    forall k: nat | k < cfg.nodes
      ensures Serves(s', k, m)
    {
      assert ServesRouted(cfg, s, k, m);
    }
  }

  lemma EmptyCallReaches(cfg: Config, s: State, s': State, x: Get, p: nat)
    requires PoolReach(cfg, s, p) && s' == s.(gets := s.gets + [x]) && x.reqs == []
    ensures PoolReach(cfg, s', p)
  {
    forall g | 0 <= g < |s'.gets| && Client(s', g) && PoolOf(s'.gets[g]) == p
      ensures Reaching(cfg, s', g)
    {
      if g < |s.gets| {
        assert Reaching(cfg, s, g);
        assert forall r: nat, j: nat :: GoesTo(cfg, s', s'.gets[g], r, j) <==> GoesTo(cfg, s, s.gets[g], r, j);
      }
    }
  }
}
