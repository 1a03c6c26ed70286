/**
 Runs that switch models: a calm run that installs a model everywhere, and the two switches that cost
 readers their shelter. For every cluster and all its models, nodes and slices.
 */
module ClusterSwitches {
  import opened Bytes
  import opened Requests
  import opened Sharding
  import opened Cluster
  import opened ClusterSafety
  import opened ClusterPools
  import opened ClusterProgress
  import opened ClusterRoutes
  import opened ClusterReads
  import opened ClusterExposure

  // ----- runs, by the state they reach

  /** A run in which all readers were sheltered. */
  ghost predicate Reaches(cfg: Config, steps: seq<Step>, s: State)
  {
    Legal(cfg, steps) && (forall i: nat :: CalmRun(cfg, steps, i)) && Final(cfg, steps) == s
  }

  lemma ReachNext(cfg: Config, steps: seq<Step>, s: State, step: Step)
    requires Reaches(cfg, steps, s) && AllSheltered(cfg, s) && Enabled(cfg, s, step)
    ensures Reaches(cfg, steps + [step], Apply(cfg, s, step))
  {
    assert (steps + [step])[..|steps|] == steps;
    forall i: nat
      ensures CalmRun(cfg, steps + [step], i)
    {
      assert CalmRun(cfg, steps, i) && Sheltered(cfg, s, i);
    }
  }

  ghost predicate AllSheltered(cfg: Config, s: State)
  {
    forall i: nat :: Sheltered(cfg, s, i)
  }

  lemma ReachSound(cfg: Config, steps: seq<Step>, s: State)
    requires Reaches(cfg, steps, s)
    ensures Sound(cfg, s)
  {
    RunsAreSound(cfg, steps);
  }

  // ----- installing a model on every node

  ghost predicate AllLoaded(s: State)
  {
    forall h :: 0 <= h < |s.handlers| ==> s.handlers[h].loaded
  }

  lemma AllLoadedSheltered(cfg: Config, s: State)
    requires AllLoaded(s)
    ensures AllSheltered(cfg, s)
  {
  }

  /** Node `k` serves `m` and routes by its slice count. */
  ghost predicate ServesRouted(cfg: Config, s: State, k: nat, m: Name)
  {
    && Servable(cfg, m) && Serves(s, k, m) && m in s.nodes[k].table
    && s.nodes[k].current == Some(s.nodes[k].table[m])
    && s.nodes[k].perNode == PerNode(|cfg.files[m]|, cfg.nodes)
  }

  /** No call and no block has been made, nothing is unloaded, and the first `n` nodes serve `m`. */
  ghost predicate Installed(cfg: Config, s: State, m: Name, n: nat)
  {
    && |s.nodes| == cfg.nodes && s.gets == [] && AllLoaded(s)
    && |s.free| == |s.made| == 2 * cfg.nodes && (forall q :: 0 <= q < |s.free| ==> s.free[q] == [] && s.made[q] == 0)
    && forall k: nat :: k < n ==> ServesRouted(cfg, s, k, m)
  }

  /** Installing `m` on node `n` leaves what the other nodes serve. */
  lemma InstallOne(cfg: Config, steps: seq<Step>, s: State, m: Name, n: nat) returns (steps': seq<Step>, s': State)
    requires Servable(cfg, m) && Reaches(cfg, steps, s) && n < cfg.nodes && Installed(cfg, s, m, n)
    ensures Reaches(cfg, steps', s') && Installed(cfg, s', m, n + 1)
    ensures forall k: nat, a :: k < |s.nodes| && a in s.nodes[k].table ==>
              a in s'.nodes[k].table && (a != m || k != n ==> s'.nodes[k].table[a] == s.nodes[k].table[a])
  {
    Split(|cfg.files[m]|, cfg.nodes);
    AllLoadedSheltered(cfg, s);
    ReachNext(cfg, steps, s, StoreRoute(n, m));
    var s1 := Apply(cfg, s, StoreRoute(n, m));
    AllLoadedSheltered(cfg, s1);
    ReachNext(cfg, steps + [StoreRoute(n, m)], s1, Publish(n, m));
    steps', s' := steps + [StoreRoute(n, m)] + [Publish(n, m)], Apply(cfg, s1, Publish(n, m));
    InstalledNext(cfg, s, m, n);
  }

  lemma InstalledNext(cfg: Config, s: State, m: Name, n: nat)
    requires Servable(cfg, m) && n < cfg.nodes && Installed(cfg, s, m, n) && PerNode(|cfg.files[m]|, cfg.nodes) > 0
    ensures Enabled(cfg, s, StoreRoute(n, m)) && Enabled(cfg, Apply(cfg, s, StoreRoute(n, m)), Publish(n, m))
    ensures Installed(cfg, Apply(cfg, Apply(cfg, s, StoreRoute(n, m)), Publish(n, m)), m, n + 1)
  {
    var s' := Apply(cfg, Apply(cfg, s, StoreRoute(n, m)), Publish(n, m));
    forall k: nat | k < n + 1
      ensures ServesRouted(cfg, s', k, m)
    {
      if k < n {
        assert ServesRouted(cfg, s, k, m);
      }
    }
  }

  /** From any run without calls in which nothing is unloaded, a calm run installs `m` on every node. */
  lemma {:induction false} InstallFrom(cfg: Config, steps: seq<Step>, s: State, m: Name, n: nat)
    returns (steps': seq<Step>, s': State)
    requires Servable(cfg, m) && Reaches(cfg, steps, s) && n <= cfg.nodes && Installed(cfg, s, m, 0)
    ensures Reaches(cfg, steps', s') && Installed(cfg, s', m, n)
    ensures forall k: nat, a :: k < |s.nodes| && a in s.nodes[k].table ==>
              a in s'.nodes[k].table && (a != m ==> s'.nodes[k].table[a] == s.nodes[k].table[a])
  {
    if n == 0 {
      steps', s' := steps, s;
    } else {
      var steps1, s1 := InstallFrom(cfg, steps, s, m, n - 1);
      steps', s' := InstallOne(cfg, steps1, s1, m, n - 1);
    }
  }

  lemma InstallEverywhere(cfg: Config, m: Name) returns (steps: seq<Step>, s: State)
    requires Servable(cfg, m)
    ensures Reaches(cfg, steps, s) && Installed(cfg, s, m, cfg.nodes)
  {
    assert Reaches(cfg, [], Initial(cfg));
    steps, s := InstallFrom(cfg, [], Initial(cfg), m, cfg.nodes);
  }

  // ----- unloading too early

  /**
   With no calls, a cleanup on `j` unloads its copy of `m` if it serves another model, and leaves the other
   nodes alone.
   */
  lemma CleanupUnloads(cfg: Config, s: State, j: nat, m: Name)
    requires Sound(cfg, s) && s.gets == [] && j < |s.nodes| && m in s.nodes[j].table
    requires s.nodes[j].current != Some(s.nodes[j].table[m])
    ensures var s' := Apply(cfg, s, Cleanup(j));
            && Unloaded(s', j, m) && s'.gets == [] && s'.nodes == s.nodes
            && forall k: nat, a :: Serves(s, k, a) ==> Serves(s', k, a)
  {
    assert NodeOk(cfg, s, j);
    assert Idle(s, j, s.nodes[j].table[m]);
  }

  lemma RoutesTo(cfg: Config, s: State, i: nat, m: Name, p: nat, j: nat)
    requires ServesRouted(cfg, s, i, m) && i < |s.nodes| && j < cfg.nodes && p < |cfg.files[m]|
    requires Loads(|cfg.files[m]|, cfg.nodes, j, p)
    ensures Sends(cfg, s, i, p, j)
  {
    Split(|cfg.files[m]|, cfg.nodes);
    RouteAgrees(|cfg.files[m]|, cfg.nodes, j, p);
  }

  lemma NoCallsNotDrained(cfg: Config, s: State, p: nat)
    requires s.gets == []
    ensures !Drained(s, p) && PoolReach(cfg, s, p)
  {
    assert FailMarks(s.gets, p) == [];
  }

  /** A slice that makes the difference: node `j` loads it, and it is not empty. */
  predicate Telling(cfg: Config, m: Name, j: nat, p: nat)
  {
    && Servable(cfg, m) && j < cfg.nodes && p < |cfg.files[m]| && p < TWO_31
    && Loads(|cfg.files[m]|, cfg.nodes, j, p) && cfg.files[m][p] != []
  }

  /** A node that has unloaded a model exposes one that serves it, with the slice that makes the difference. */
  lemma TellingExposes(cfg: Config, s: State, i: nat, j: nat, m: Name, p: nat) returns (req: SliceRequest)
    requires Telling(cfg, m, j, p) && ServesRouted(cfg, s, i, m) && i < |s.nodes| && Unloaded(s, j, m)
    requires s.gets == []
    ensures NodeExposed(cfg, s, i, j, m, req)
  {
    RoutesTo(cfg, s, i, m, p, j);
    NoCallsNotDrained(cfg, s, 2 * i);
    req := SliceAsks(cfg, s, i, j, m, p);
  }

  /**
   A cleanup that comes too early: in every cluster, for any two models and nodes, once `j` has moved on
   and cleans up while `i` still serves the old model, a client of `i` can get a wrong answer. Everything
   before the cleanup is calm.
   */
  lemma EarlyCleanupGoesWrong(cfg: Config, m: Name, next: Name, i: nat, j: nat, p: nat)
    returns (steps: seq<Step>, more: seq<Step>, g: nat)
    requires Servable(cfg, next) && next != m && i < cfg.nodes && i != j && Telling(cfg, m, j, p)
    ensures Legal(cfg, steps + [Cleanup(j)]) && forall k: nat :: CalmRun(cfg, steps + [Cleanup(j)], k)
    ensures GoesWrong(cfg, steps + [Cleanup(j)], more, g, 0, j)
  {
    var steps0, s0 := InstallEverywhere(cfg, m);
    var s1;
    steps, s1 := MoveOn(cfg, steps0, s0, m, next, i, j);
    ReachNext(cfg, steps, s1, Cleanup(j));
    var s2 := Apply(cfg, s1, Cleanup(j));
    ReachSound(cfg, steps, s1);
    CleanupUnloads(cfg, s1, j, m);
    var req := TellingExposes(cfg, s2, i, j, m, p);
    NoCallsNotDrained(cfg, s2, 2 * i);
    more, g := LostNodeGoesWrong(cfg, steps + [Cleanup(j)], i, j, m, req);
  }

  /** Node `j` stores the route for another model and installs it, while `i` serves `m`. */
  lemma MoveOn(cfg: Config, steps: seq<Step>, s: State, m: Name, next: Name, i: nat, j: nat)
    returns (steps': seq<Step>, s': State)
    requires Reaches(cfg, steps, s) && Installed(cfg, s, m, cfg.nodes) && Servable(cfg, next) && next != m
    requires i < cfg.nodes && j < cfg.nodes && i != j
    ensures Reaches(cfg, steps', s') && AllSheltered(cfg, s') && s'.gets == [] && |s'.nodes| == cfg.nodes
    ensures ServesRouted(cfg, s', i, m)
    ensures m in s'.nodes[j].table && s'.nodes[j].current != Some(s'.nodes[j].table[m])
  {
    MovedOn(cfg, s, m, next, i, j);
    AllLoadedSheltered(cfg, s);
    ReachNext(cfg, steps, s, StoreRoute(j, next));
    var s1 := Apply(cfg, s, StoreRoute(j, next));
    AllLoadedSheltered(cfg, s1);
    ReachNext(cfg, steps + [StoreRoute(j, next)], s1, Publish(j, next));
    steps', s' := steps + [StoreRoute(j, next)] + [Publish(j, next)], Apply(cfg, s1, Publish(j, next));
    AllLoadedSheltered(cfg, s');
  }

  lemma MovedOn(cfg: Config, s: State, m: Name, next: Name, i: nat, j: nat)
    requires Installed(cfg, s, m, cfg.nodes) && Servable(cfg, next) && next != m
    requires i < cfg.nodes && j < cfg.nodes && i != j
    ensures Enabled(cfg, s, StoreRoute(j, next)) && AllLoaded(Apply(cfg, s, StoreRoute(j, next)))
    ensures Enabled(cfg, Apply(cfg, s, StoreRoute(j, next)), Publish(j, next))
    ensures var s' := Apply(cfg, Apply(cfg, s, StoreRoute(j, next)), Publish(j, next));
            && AllLoaded(s') && s'.gets == [] && |s'.nodes| == cfg.nodes && ServesRouted(cfg, s', i, m)
            && m in s'.nodes[j].table && s'.nodes[j].current != Some(s'.nodes[j].table[m])
  {
    Split(|cfg.files[next]|, cfg.nodes);
    assert ServesRouted(cfg, s, i, m) && ServesRouted(cfg, s, j, m);
  }

  // ----- a route stored ahead of its model

  /** Where the quotient of another model sends a slice of `m` that node `j` loads, `m` is not loaded. */
  lemma AheadMisrouted(cfg: Config, s: State, i: nat, j: nat, m: Name, p: nat) returns (req: SliceRequest)
    requires Telling(cfg, m, j, p) && i < |s.nodes| == cfg.nodes && s.gets == [] && s.nodes[i].perNode > 0
    requires Serves(s, i, m) && forall k: nat :: k < cfg.nodes ==> m in s.nodes[k].table
    requires NodeForSlice(s.nodes[i].perNode, cfg.nodes, p) != j
    ensures NodeMisrouted(cfg, s, i, NodeForSlice(s.nodes[i].perNode, cfg.nodes, p), m, req)
  {
    var away := NodeForSlice(s.nodes[i].perNode, cfg.nodes, p);
    RouteAgrees(|cfg.files[m]|, cfg.nodes, j, p);
    RouteAgrees(|cfg.files[m]|, cfg.nodes, away, p);
    NoCallsNotDrained(cfg, s, 2 * i);
    req := SliceAsks(cfg, s, i, away, m, p);
  }

  /**
   Between storing the route and installing the model: in every cluster, when the quotient of the next model
   sends a slice of the old one elsewhere, a client of the node that has just stored it can get a wrong answer.
   */
  lemma RouteAheadGoesWrong(cfg: Config, m: Name, next: Name, i: nat, j: nat, p: nat)
    returns (steps: seq<Step>, more: seq<Step>, g: nat)
    requires Servable(cfg, next) && i < cfg.nodes && Telling(cfg, m, j, p)
    requires PerNode(|cfg.files[next]|, cfg.nodes) > 0
    requires NodeForSlice(PerNode(|cfg.files[next]|, cfg.nodes), cfg.nodes, p) != j
    ensures Legal(cfg, steps + [StoreRoute(i, next)])
    ensures forall k: nat :: CalmRun(cfg, steps + [StoreRoute(i, next)], k)
    ensures GoesWrong(cfg, steps + [StoreRoute(i, next)], more, g, 0,
                      NodeForSlice(PerNode(|cfg.files[next]|, cfg.nodes), cfg.nodes, p))
  {
    var s;
    steps, s := InstallEverywhere(cfg, m);
    AllLoadedSheltered(cfg, s);
    ReachNext(cfg, steps, s, StoreRoute(i, next));
    var s1 := Apply(cfg, s, StoreRoute(i, next));
    forall k: nat | k < cfg.nodes
      ensures m in s1.nodes[k].table && Serves(s1, k, m)
    {
      assert ServesRouted(cfg, s, k, m);
    }
    var req := AheadMisrouted(cfg, s1, i, j, m, p);
    NoCallsNotDrained(cfg, s1, 2 * i);
    more, g := LostNodeGoesWrong(cfg, steps + [StoreRoute(i, next)], i,
                                 NodeForSlice(s1.nodes[i].perNode, cfg.nodes, p), m, req);
  }

  // ----- a single node

  /** A node never exposes its own clients, so in a cluster of one every switch and rollback is harmless. */
  lemma SingleNodeSheltered(cfg: Config, steps: seq<Step>)
    requires cfg.nodes == 1 && Legal(cfg, steps)
    ensures AllSheltered(cfg, Final(cfg, steps))
  {
    var s := Final(cfg, steps);
    RunsAreSound(cfg, steps);
    forall i: nat, j: nat, m, req
      ensures !NodeExposed(cfg, s, i, j, m, req)
    {
      if i == j < |s.nodes| {
        assert NodeOk(cfg, s, j);
      }
    }
    forall g: nat, r: nat, j: nat
      ensures !CallExposed(cfg, s, g, r, j)
    {
      if g < |s.gets| {
        assert GetOk(cfg, s.gets[g]);
      }
    }
  }

  // ----- rolling back

  /** When every node serves the same model and no call runs, nobody is exposed. */
  lemma SameModelSheltered(cfg: Config, s: State, m: Name)
    requires Sound(cfg, s) && s.gets == [] && forall k: nat :: k < |s.nodes| ==> Serves(s, k, m)
    ensures AllSheltered(cfg, s)
  {
    forall i: nat, j: nat, a, req
      ensures !NodeExposed(cfg, s, i, j, a, req)
    {
      if i < |s.nodes| && j < |s.nodes| {
        assert Serves(s, i, m) && Serves(s, j, m) && NodeOk(cfg, s, j);
      }
    }
  }

  /**
   A rollback: in every cluster, after all nodes have moved from `m` to another model and `j` has unloaded
   `m`, however late, the first node `i` to install `m` again lets its clients get a wrong answer.
   Everything before that is calm.
   */
  lemma RollbackGoesWrong(cfg: Config, m: Name, other: Name, i: nat, j: nat, p: nat)
    returns (steps: seq<Step>, more: seq<Step>, g: nat)
    requires Servable(cfg, other) && other != m && i < cfg.nodes && i != j && Telling(cfg, m, j, p)
    ensures Legal(cfg, steps + [Publish(i, m)]) && forall k: nat :: CalmRun(cfg, steps + [Publish(i, m)], k)
    ensures GoesWrong(cfg, steps + [Publish(i, m)], more, g, 0, j)
  {
    var steps1, s1 := UnloadedEverywhereElse(cfg, m, other, j);
    var steps2, s2 := RouteBack(cfg, steps1, s1, m, other, i, j);
    steps := steps2;
    ReachNext(cfg, steps, s2, Publish(i, m));
    var s3 := Apply(cfg, s2, Publish(i, m));
    assert ServesRouted(cfg, s3, i, m) && Unloaded(s3, j, m);
    var req := TellingExposes(cfg, s3, i, j, m, p);
    NoCallsNotDrained(cfg, s3, 2 * i);
    more, g := LostNodeGoesWrong(cfg, steps + [Publish(i, m)], i, j, m, req);
  }

  /** Every node has moved on to `other`, and `j` has unloaded `m`. */
  lemma UnloadedEverywhereElse(cfg: Config, m: Name, other: Name, j: nat) returns (steps: seq<Step>, s: State)
    requires Servable(cfg, m) && Servable(cfg, other) && other != m && j < cfg.nodes
    ensures Reaches(cfg, steps, s) && s.gets == [] && |s.nodes| == cfg.nodes && Unloaded(s, j, m)
    ensures forall k: nat :: k < |s.nodes| ==> Serves(s, k, other)
  {
    var steps0, s0 := InstallEverywhere(cfg, m);
    var steps1, s1 := InstallFrom(cfg, steps0, s0, other, cfg.nodes);
    ReachSound(cfg, steps1, s1);
    assert ServesRouted(cfg, s0, j, m) && ServesRouted(cfg, s1, j, other) && NodeOk(cfg, s1, j);
    forall k: nat | k < |s1.nodes|
      ensures Serves(s1, k, other)
    {
      assert ServesRouted(cfg, s1, k, other);
    }
    AllLoadedSheltered(cfg, s1);
    ReachNext(cfg, steps1, s1, Cleanup(j));
    CleanupUnloads(cfg, s1, j, m);
    steps, s := steps1 + [Cleanup(j)], Apply(cfg, s1, Cleanup(j));
  }

  lemma RouteBack(cfg: Config, steps: seq<Step>, s: State, m: Name, other: Name, i: nat, j: nat)
    returns (steps': seq<Step>, s': State)
    requires Reaches(cfg, steps, s) && s.gets == [] && |s.nodes| == cfg.nodes && Unloaded(s, j, m)
    requires Servable(cfg, m) && i < cfg.nodes
    requires forall k: nat :: k < |s.nodes| ==> Serves(s, k, other)
    ensures Reaches(cfg, steps', s') && AllSheltered(cfg, s') && s'.gets == [] && |s'.nodes| == cfg.nodes
    ensures Unloaded(s', j, m)
    ensures s'.nodes[i].perNode == PerNode(|cfg.files[m]|, cfg.nodes) > 0
  {
    Split(|cfg.files[m]|, cfg.nodes);
    ReachSound(cfg, steps, s);
    SameModelSheltered(cfg, s, other);
    ReachNext(cfg, steps, s, StoreRoute(i, m));
    steps', s' := steps + [StoreRoute(i, m)], Apply(cfg, s, StoreRoute(i, m));
    ReachSound(cfg, steps', s');
    forall k: nat | k < |s'.nodes|
      ensures Serves(s', k, other)
    {
      assert Serves(s, k, other);
    }
    SameModelSheltered(cfg, s', other);
  }
}
