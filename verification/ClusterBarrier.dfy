/**
 The cluster with its switches behind the barrier: a node installs a model only after all nodes have
 registered theirs, so that a lookup of a served model can always be answered in the end.
 */
module ClusterBarrier {
  import opened Requests
  import opened Sharding
  import opened Cluster
  import opened ClusterSafety
  import opened ClusterCalls
  import opened ClusterProgress
  import opened ClusterRoutes
  import Barrier

  datatype Joint = Joint(c: State, b: Barrier.State)

  datatype Move =
    | Serve(step: Step)          // anything but storing a route and installing a model
    | Sync(sync: Barrier.Step)   // the switch up to the open barrier
    | Route(i: nat)              // after the barrier: store the slices per node
    | Install(i: nat)            // then put the handler into the table

  /** The model a node that has passed the barrier is about to install. */
  function Next(b: Barrier.State, i: nat): (m: Name)
    requires i < |b.nodes| && 0 < b.nodes[i].version <= |b.nodes[i].models|
  {
    b.nodes[i].models[b.nodes[i].version - 1]
  }

  predicate Ready(b: Barrier.State, i: nat)
  {
    i < |b.nodes| && b.nodes[i].pc == Barrier.Passed && 0 < b.nodes[i].version <= |b.nodes[i].models|
  }

  predicate Can(cfg: Config, s: Joint, move: Move)
  {
    match move
    case Serve(step) => !step.StoreRoute? && !step.Publish? && Enabled(cfg, s.c, step)
    case Sync(sync) =>
      && !sync.Publish? && Barrier.Enabled(s.b, sync)
      && (sync.Load? ==> Servable(cfg, sync.m))
    case Route(i) => Ready(s.b, i) && Enabled(cfg, s.c, StoreRoute(i, Next(s.b, i)))
    case Install(i) =>
      && Ready(s.b, i) && Enabled(cfg, s.c, Publish(i, Next(s.b, i)))
      && s.c.nodes[i].perNode == PerNode(|cfg.files[Next(s.b, i)]|, cfg.nodes)
  }

  function Do(cfg: Config, s: Joint, move: Move): (s': Joint)
    requires Can(cfg, s, move)
  {
    match move
    case Serve(step) => s.(c := Apply(cfg, s.c, step))
    case Sync(sync) => s.(b := Barrier.Apply(s.b, sync))
    case Route(i) => s.(c := Apply(cfg, s.c, StoreRoute(i, Next(s.b, i))))
    case Install(i) =>
      Joint(Apply(cfg, s.c, Publish(i, Next(s.b, i))), Barrier.Apply(s.b, Barrier.Publish(i)))
  }

  predicate Moves(cfg: Config, s: Joint, move: Move, s': Joint)
  {
    Can(cfg, s, move) && s' == Do(cfg, s, move)
  }

  /** The moves lead through these states, one after another. */
  ghost predicate Path(cfg: Config, states: seq<Joint>, moves: seq<Move>)
  {
    |states| == |moves| + 1 && forall i :: 0 <= i < |moves| ==> Moves(cfg, states[i], moves[i], states[i + 1])
  }

  function Start(cfg: Config): (s: Joint)
  {
    Joint(Initial(cfg), Barrier.Initial(cfg.nodes))
  }

  /** Every node takes the model planned for each switch. */
  ghost predicate Planned(s: Joint, move: Move, plan: nat -> Name)
  {
    move.Sync? && move.sync.Load? && move.sync.i < |s.b.nodes| ==> move.sync.m == plan(s.b.nodes[move.sync.i].version)
  }

  /** A path from the start on which all nodes follow the plan. */
  ghost predicate PlannedRun(cfg: Config, states: seq<Joint>, moves: seq<Move>, plan: nat -> Name)
  {
    && Path(cfg, states, moves) && states[0] == Start(cfg)
    && forall i :: 0 <= i < |moves| ==> Planned(states[i], moves[i], plan)
  }

  // ----- what ties the two machines together

  /** One of the models this node has put into its table is `m`. */
  ghost predicate Has(b: Barrier.State, k: nat, m: Name)
  {
    && k < |b.nodes|
    && exists w: nat ::
         w < Barrier.Published(b.nodes[k]) && w < |b.nodes[k].models| && b.nodes[k].models[w] == m
  }

  ghost predicate AsPlanned(cfg: Config, m: Name, plan: nat -> Name, w: nat)
  {
    m == plan(w) && Servable(cfg, m)
  }

  ghost predicate ModelsOk(cfg: Config, b: Barrier.State, plan: nat -> Name)
  {
    forall k, w :: 0 <= k < |b.nodes| && 0 <= w < |b.nodes[k].models| ==>
      AsPlanned(cfg, b.nodes[k].models[w], plan, w)
  }

  ghost predicate TableOk(s: Joint, k: nat)
    requires k < |s.c.nodes|
  {
    && (forall m :: Has(s.b, k, m) ==> m in s.c.nodes[k].table)
    && (forall m :: Serves(s.c, k, m) ==> Has(s.b, k, m))
  }

  ghost predicate Tied(cfg: Config, s: Joint, plan: nat -> Name)
  {
    && Sound(cfg, s.c) && Barrier.Inv(s.b) && |s.c.nodes| == |s.b.nodes| == cfg.nodes
    && ModelsOk(cfg, s.b, plan)
    && (forall k: nat :: k < cfg.nodes ==> TableOk(s, k))
    && (forall g :: 0 <= g < |s.c.gets| && s.c.gets[g].parent.None? ==> Has(s.b, s.c.gets[g].node, s.c.gets[g].name))
  }

  /** Nothing that is in a table is taken out again. */
  ghost predicate Grows(b: Barrier.State, b': Barrier.State)
  {
    |b'.nodes| == |b.nodes| && forall k: nat, m :: Has(b, k, m) ==> Has(b', k, m)
  }

  lemma BarrierGrows(b: Barrier.State, step: Barrier.Step)
    requires Barrier.Inv(b) && Barrier.Enabled(b, step)
    ensures Grows(b, Barrier.Apply(b, step))
  {
    var b' := Barrier.Apply(b, step);
    forall k: nat, m | Has(b, k, m)
      ensures Has(b', k, m)
    {
      var w: nat :| w < Barrier.Published(b.nodes[k]) && w < |b.nodes[k].models| && b.nodes[k].models[w] == m;
      assert Barrier.NodeOk(b.nodes[k]);
      assert w < Barrier.Published(b'.nodes[k]) && b'.nodes[k].models[w] == m;
    }
  }

  /** Up to the open barrier nothing is put into a table. */
  lemma SyncAdds(b: Barrier.State, step: Barrier.Step, k: nat, m: Name)
    requires Barrier.Inv(b) && Barrier.Enabled(b, step) && !step.Publish? && Has(Barrier.Apply(b, step), k, m)
    ensures Has(b, k, m)
  {
    var b' := Barrier.Apply(b, step);
    var w: nat :| w < Barrier.Published(b'.nodes[k]) && w < |b'.nodes[k].models| && b'.nodes[k].models[w] == m;
    assert Barrier.NodeOk(b.nodes[k]);
    assert w < Barrier.Published(b.nodes[k]) && b.nodes[k].models[w] == m;
  }

  lemma InstallAdds(b: Barrier.State, i: nat, k: nat, m: Name)
    requires Barrier.Inv(b) && Ready(b, i) && Has(Barrier.Apply(b, Barrier.Publish(i)), k, m)
    ensures Has(b, k, m) || (k == i && m == Next(b, i))
  {
    var b' := Barrier.Apply(b, Barrier.Publish(i));
    var w: nat :| w < Barrier.Published(b'.nodes[k]) && w < |b'.nodes[k].models| && b'.nodes[k].models[w] == m;
    assert Barrier.NodeOk(b.nodes[k]);
    assert w < Barrier.Published(b.nodes[k]) || w == b.nodes[i].version - 1;
  }

  lemma InstalledHas(b: Barrier.State, i: nat)
    requires Barrier.Inv(b) && Ready(b, i)
    ensures Has(Barrier.Apply(b, Barrier.Publish(i)), i, Next(b, i))
  {
    var b' := Barrier.Apply(b, Barrier.Publish(i));
    var w := b.nodes[i].version - 1;
    assert w < Barrier.Published(b'.nodes[i]) && b'.nodes[i].models[w] == Next(b, i);
  }

  // ----- every move keeps them tied

  lemma ServeTied(cfg: Config, s: Joint, step: Step, plan: nat -> Name)
    requires Tied(cfg, s, plan) && Can(cfg, s, Serve(step))
    ensures Tied(cfg, Do(cfg, s, Serve(step)), plan)
  {
    var s' := Do(cfg, s, Serve(step));
    StepSound(cfg, s.c, step);
    ServeNodes(cfg, s.c, step);
    forall k: nat | k < cfg.nodes
      ensures TableOk(s', k)
    {
      assert TableOk(s, k);
    }
    ServeCalls(cfg, s, step, plan);
  }

  /** A new client's call is for a model its node has put into its table. */
  lemma ServeCalls(cfg: Config, s: Joint, step: Step, plan: nat -> Name)
    requires Tied(cfg, s, plan) && Can(cfg, s, Serve(step))
    ensures var c' := Apply(cfg, s.c, step);
            forall g :: 0 <= g < |c'.gets| && c'.gets[g].parent.None? ==> Has(s.b, c'.gets[g].node, c'.gets[g].name)
  {
    var c' := Apply(cfg, s.c, step);
    forall g | 0 <= g < |c'.gets| && c'.gets[g].parent.None?
      ensures Has(s.b, c'.gets[g].node, c'.gets[g].name)
    {
      if g < |s.c.gets| {
        OldCallHas(cfg, s, step, g);
      } else {
        StepContinues(cfg, s.c, step);
        NewCallHas(cfg, s, step);
      }
    }
  }

  lemma OldCallHas(cfg: Config, s: Joint, step: Step, g: nat)
    requires Can(cfg, s, Serve(step)) && g < |s.c.gets|
    requires s.c.gets[g].parent.None? ==> Has(s.b, s.c.gets[g].node, s.c.gets[g].name)
    ensures g < |Apply(cfg, s.c, step).gets|
    ensures var x := Apply(cfg, s.c, step).gets[g]; x.parent.None? ==> Has(s.b, x.node, x.name)
  {
    CallContinues(cfg, s.c, step, g);
  }

  lemma NewCallHas(cfg: Config, s: Joint, step: Step)
    requires Can(cfg, s, Serve(step)) && forall k: nat :: k < |s.c.nodes| ==> TableOk(s, k)
    requires |Apply(cfg, s.c, step).gets| > |s.c.gets| && Apply(cfg, s.c, step).gets[|s.c.gets|].parent.None?
    ensures var x := Apply(cfg, s.c, step).gets[|s.c.gets|]; Has(s.b, x.node, x.name)
  {
    JoinsAsChild(cfg, s.c, step);
    CapturedServes(cfg, s.c, step.node, step.reqs);
    assert TableOk(s, step.node);
  }

  lemma CapturedServes(cfg: Config, s: State, node: nat, reqs: seq<SliceRequest>)
    requires Enabled(cfg, s, Capture(node, reqs))
    ensures var x := Apply(cfg, s, Capture(node, reqs)).gets[|s.gets|]; x.node == node && Serves(s, node, x.name)
  {
  }

  lemma ServeNodes(cfg: Config, s: State, step: Step)
    requires Enabled(cfg, s, step) && !step.StoreRoute? && !step.Publish?
    ensures var s' := Apply(cfg, s, step); s'.nodes == s.nodes && forall k: nat, m :: Serves(s', k, m) ==>
        Serves(s, k, m)
  {
    if Actor(step).Some? {
      ActorKeepsNodes(cfg, s, step);
    }
  }

  /** The calls are as before, and no table has lost a model. */
  lemma TiedNext(cfg: Config, s: Joint, s': Joint, plan: nat -> Name)
    requires Tied(cfg, s, plan) && Sound(cfg, s'.c) && Barrier.Inv(s'.b) && ModelsOk(cfg, s'.b, plan)
    requires |s'.c.nodes| == cfg.nodes && s'.c.gets == s.c.gets && Grows(s.b, s'.b)
    requires forall k: nat :: k < cfg.nodes ==> TableOk(s', k)
    ensures Tied(cfg, s', plan)
  {
    forall g | 0 <= g < |s'.c.gets| && s'.c.gets[g].parent.None?
      ensures Has(s'.b, s'.c.gets[g].node, s'.c.gets[g].name)
    {
      assert Has(s.b, s.c.gets[g].node, s.c.gets[g].name);
    }
  }

  lemma SyncTied(cfg: Config, s: Joint, sync: Barrier.Step, plan: nat -> Name)
    requires Tied(cfg, s, plan) && Can(cfg, s, Sync(sync)) && Planned(s, Sync(sync), plan)
    ensures Tied(cfg, Do(cfg, s, Sync(sync)), plan)
  {
    var s' := Do(cfg, s, Sync(sync));
    Barrier.StepInv(s.b, sync);
    BarrierGrows(s.b, sync);
    SyncModels(cfg, s, sync, plan);
    forall k: nat | k < cfg.nodes
      ensures TableOk(s', k)
    {
      assert TableOk(s, k);
      SyncTable(cfg, s, sync, k);
    }
    TiedNext(cfg, s, s', plan);
  }

  lemma SyncTable(cfg: Config, s: Joint, sync: Barrier.Step, k: nat)
    requires Barrier.Inv(s.b) && Can(cfg, s, Sync(sync)) && k < |s.c.nodes| && TableOk(s, k)
    requires Grows(s.b, Barrier.Apply(s.b, sync))
    ensures TableOk(Do(cfg, s, Sync(sync)), k)
  {
    forall m | Has(Do(cfg, s, Sync(sync)).b, k, m)
      ensures m in s.c.nodes[k].table
    {
      SyncAdds(s.b, sync, k, m);
    }
  }

  lemma SyncModels(cfg: Config, s: Joint, sync: Barrier.Step, plan: nat -> Name)
    requires Tied(cfg, s, plan) && Can(cfg, s, Sync(sync)) && Planned(s, Sync(sync), plan)
    ensures ModelsOk(cfg, Barrier.Apply(s.b, sync), plan)
  {
    var b' := Barrier.Apply(s.b, sync);
    assert Barrier.NodeOk(s.b.nodes[sync.i]);
    forall k, w | 0 <= k < |b'.nodes| && 0 <= w < |b'.nodes[k].models|
      ensures AsPlanned(cfg, b'.nodes[k].models[w], plan, w)
    {
      if w < |s.b.nodes[k].models| {
        assert b'.nodes[k].models[w] == s.b.nodes[k].models[w] && AsPlanned(cfg, s.b.nodes[k].models[w], plan, w);
      } else {
        assert sync.Load? && k == sync.i && w == s.b.nodes[k].version && b'.nodes[k].models[w] == sync.m;
      }
    }
  }

  lemma RouteTied(cfg: Config, s: Joint, i: nat, plan: nat -> Name)
    requires Tied(cfg, s, plan) && Can(cfg, s, Route(i))
    ensures Tied(cfg, Do(cfg, s, Route(i)), plan)
  {
    var s' := Do(cfg, s, Route(i));
    StepSound(cfg, s.c, StoreRoute(i, Next(s.b, i)));
    forall k: nat | k < cfg.nodes
      ensures TableOk(s', k)
    {
      assert TableOk(s, k);
      assert forall m :: Serves(s'.c, k, m) ==> Serves(s.c, k, m);
    }
    TiedNext(cfg, s, s', plan);
  }

  lemma InstallTied(cfg: Config, s: Joint, i: nat, plan: nat -> Name)
    requires Tied(cfg, s, plan) && Can(cfg, s, Install(i))
    ensures Tied(cfg, Do(cfg, s, Install(i)), plan)
  {
    StepSound(cfg, s.c, Publish(i, Next(s.b, i)));
    Barrier.StepInv(s.b, Barrier.Publish(i));
    BarrierGrows(s.b, Barrier.Publish(i));
    InstalledHas(s.b, i);
    InstallTables(cfg, s, i);
    InstallModels(cfg, s.b, i, plan);
    TiedNext(cfg, s, Do(cfg, s, Install(i)), plan);
  }

  /** What a node has loaded does not change when it installs it. */
  lemma InstallModels(cfg: Config, b: Barrier.State, i: nat, plan: nat -> Name)
    requires Barrier.Enabled(b, Barrier.Publish(i)) && ModelsOk(cfg, b, plan)
    ensures ModelsOk(cfg, Barrier.Apply(b, Barrier.Publish(i)), plan)
  {
    var b' := Barrier.Apply(b, Barrier.Publish(i));
    forall k, w | 0 <= k < |b'.nodes| && 0 <= w < |b'.nodes[k].models|
      ensures AsPlanned(cfg, b'.nodes[k].models[w], plan, w)
    {
      assert b'.nodes[k].models == b.nodes[k].models && AsPlanned(cfg, b.nodes[k].models[w], plan, w);
    }
  }

  lemma InstallTables(cfg: Config, s: Joint, i: nat)
    requires Barrier.Inv(s.b) && Can(cfg, s, Install(i)) && Safe(cfg, s.c)
    requires |s.c.nodes| == cfg.nodes && forall k: nat :: k < cfg.nodes ==> TableOk(s, k)
    requires Grows(s.b, Do(cfg, s, Install(i)).b) && Has(Do(cfg, s, Install(i)).b, i, Next(s.b, i))
    ensures |Do(cfg, s, Install(i)).c.nodes| == cfg.nodes
    ensures forall k: nat :: k < cfg.nodes ==> TableOk(Do(cfg, s, Install(i)), k)
  {
    forall k: nat | k < cfg.nodes
      ensures TableOk(Do(cfg, s, Install(i)), k)
    {
      assert TableOk(s, k);
      InstallTable(cfg, s, i, k);
    }
  }

  lemma InstallTable(cfg: Config, s: Joint, i: nat, k: nat)
    requires Barrier.Inv(s.b) && Can(cfg, s, Install(i)) && k < |s.c.nodes| && TableOk(s, k)
    requires Safe(cfg, s.c) && Grows(s.b, Do(cfg, s, Install(i)).b)
    requires Has(Do(cfg, s, Install(i)).b, i, Next(s.b, i))
    ensures TableOk(Do(cfg, s, Install(i)), k)
  {
    var s' := Do(cfg, s, Install(i));
    assert NodeOk(cfg, s.c, k);
    forall m | Has(s'.b, k, m)
      ensures m in s'.c.nodes[k].table
    {
      InstallAdds(s.b, i, k, m);
    }
    forall m | Serves(s'.c, k, m)
      ensures Has(s'.b, k, m)
    {
      if k != i {
        assert Serves(s.c, k, m);
      }
    }
  }

  lemma MoveTied(cfg: Config, s: Joint, move: Move, plan: nat -> Name)
    requires Tied(cfg, s, plan) && Can(cfg, s, move) && Planned(s, move, plan)
    ensures Tied(cfg, Do(cfg, s, move), plan)
  {
    match move
    case Serve(step) => ServeTied(cfg, s, step, plan);
    case Sync(sync) => SyncTied(cfg, s, sync, plan);
    case Route(i) => RouteTied(cfg, s, i, plan);
    case Install(i) => InstallTied(cfg, s, i, plan);
  }

  lemma {:induction false} PlannedRunTied(cfg: Config, states: seq<Joint>, moves: seq<Move>, plan: nat -> Name, n: nat)
    requires PlannedRun(cfg, states, moves, plan) && n <= |moves|
    ensures Tied(cfg, states[n], plan)
  {
    if n == 0 {
      RunsAreSound(cfg, []);
      Barrier.RunsInv(cfg.nodes, []);
    } else {
      PlannedRunTied(cfg, states, moves, plan, n - 1);
      assert Moves(cfg, states[n - 1], moves[n - 1], states[n]) && Planned(states[n - 1], moves[n - 1], plan);
      MoveTied(cfg, states[n - 1], moves[n - 1], plan);
    }
  }

  // ----- going on from a state

  /** The moves lead from `s` to `s'`. */
  ghost predicate Leads(cfg: Config, s: Joint, moves: seq<Move>, s': Joint)
  {
    exists states :: Path(cfg, states, moves) && states[0] == s && states[|moves|] == s'
  }

  lemma LeadsOne(cfg: Config, s: Joint, move: Move, s': Joint)
    requires Moves(cfg, s, move, s')
    ensures Leads(cfg, s, [move], s')
  {
    assert Path(cfg, [s, s'], [move]);
  }

  lemma LeadsOn(cfg: Config, a: Joint, first: seq<Move>, b: Joint, second: seq<Move>, c: Joint)
    requires Leads(cfg, a, first, b) && Leads(cfg, b, second, c)
    ensures Leads(cfg, a, first + second, c)
  {
    var xs :| Path(cfg, xs, first) && xs[0] == a && xs[|first|] == b;
    var ys :| Path(cfg, ys, second) && ys[0] == b && ys[|second|] == c;
    PathsJoin(cfg, xs, first, ys, second);
  }

  lemma PathsJoin(cfg: Config, xs: seq<Joint>, first: seq<Move>, ys: seq<Joint>, second: seq<Move>)
    requires Path(cfg, xs, first) && Path(cfg, ys, second) && xs[|first|] == ys[0]
    ensures var zs := xs + ys[1..];
            Path(cfg, zs, first + second) && zs[0] == xs[0] && zs[|first + second|] == ys[|second|]
  {
    var zs, moves := xs + ys[1..], first + second;
    forall i | 0 <= i < |moves|
      ensures Moves(cfg, zs[i], moves[i], zs[i + 1])
    {
      if i < |first| {
        assert Moves(cfg, xs[i], first[i], xs[i + 1]);
      } else {
        assert zs[i] == ys[i - |first|] && zs[i + 1] == ys[i - |first| + 1];
        assert Moves(cfg, ys[i - |first|], second[i - |first|], ys[i - |first| + 1]);
      }
    }
  }

  /** Moves that load no new model and lose nothing. */
  predicate Harmless(moves: seq<Move>)
  {
    forall i :: 0 <= i < |moves| ==>
      (moves[i].Sync? ==> !moves[i].sync.Load?) && (moves[i].Serve? ==> !moves[i].step.Lose?)
  }

  lemma LiftTrace(cfg: Config, b: Barrier.State, states: seq<State>, more: seq<Step>) returns (moves: seq<Move>)
    requires Trace(cfg, states, more) && Lossless(more)
    ensures Leads(cfg, Joint(states[0], b), moves, Joint(states[|more|], b)) && Harmless(moves)
  {
    moves := seq(|more|, i requires 0 <= i < |more| => Serve(more[i]));
    var path := seq(|states|, i requires 0 <= i < |states| => Joint(states[i], b));
    forall i | 0 <= i < |moves|
      ensures Moves(cfg, path[i], moves[i], path[i + 1])
    {
      assert Goes(cfg, states[i], more[i], states[i + 1]);
    }
    assert Path(cfg, path, moves);
  }

  // ----- the nodes catch up

  /** What node `k` has left to do until its table has the model of switch `v`. */
  function Left(cfg: Config, s: Joint, k: nat): (n: nat)
    requires k < |s.b.nodes| && k < |s.c.nodes|
  {
    match s.b.nodes[k].pc
    case Loaded => 4
    case Registered => 3
    case Passed =>
      if Ready(s.b, k) && Next(s.b, k) in cfg.files && cfg.nodes > 0 &&
         s.c.nodes[k].perNode == PerNode(|cfg.files[Next(s.b, k)]|, cfg.nodes) then 1 else 2
    case Idle => 0
  }

  /** The calls, and the counts of the blocks made for them, are as before. */
  ghost predicate SameCalls(s: Joint, s': Joint)
  {
    s'.c.gets == s.c.gets && s'.c.made == s.c.made
  }

  /** The barriers of the other nodes and all calls are left alone. */
  ghost predicate OnlyNode(s: Joint, s': Joint, k: nat)
  {
    && SameCalls(s, s') && |s'.b.nodes| == |s.b.nodes| && |s'.c.nodes| == |s.c.nodes|
    && forall x :: 0 <= x < |s.b.nodes| && x != k ==> s'.b.nodes[x] == s.b.nodes[x]
  }

  /** While node `j` has the model of switch `v` in its table and `k` has not, `k` can move on by itself. */
  lemma CatchStep(cfg: Config, s: Joint, plan: nat -> Name, v: nat, j: nat, k: nat) returns (move: Move)
    requires Tied(cfg, s, plan) && j < cfg.nodes && k < cfg.nodes
    requires Barrier.Published(s.b.nodes[k]) <= v < Barrier.Published(s.b.nodes[j])
    ensures Can(cfg, s, move) && Harmless([move]) && OnlyNode(s, Do(cfg, s, move), k)
    ensures var s' := Do(cfg, s, move);
            && Barrier.Published(s'.b.nodes[k]) <= v + 1
            && (v < Barrier.Published(s'.b.nodes[k]) || Left(cfg, s', k) < Left(cfg, s, k))
  {
    Barrier.OpenState(s.b, v, k, j);
    assert Barrier.NodeOk(s.b.nodes[k]);
    var n := s.b.nodes[k];
    if n.pc == Barrier.Loaded {
      move := Sync(Barrier.SetOk(k));
    } else if n.pc == Barrier.Registered {
      move := Sync(Barrier.ListOk(k));
    } else {
      move := InstallOrRoute(cfg, s, plan, k);
    }
  }

  lemma InstallOrRoute(cfg: Config, s: Joint, plan: nat -> Name, k: nat) returns (move: Move)
    requires Tied(cfg, s, plan) && Ready(s.b, k)
    ensures Can(cfg, s, move) && Harmless([move]) && OnlyNode(s, Do(cfg, s, move), k)
    ensures var s' := Do(cfg, s, move);
            && Barrier.Published(s'.b.nodes[k]) <= s.b.nodes[k].version
            && (s.b.nodes[k].version <= Barrier.Published(s'.b.nodes[k]) || Left(cfg, s', k) < Left(cfg, s, k))
  {
    var m, w := Next(s.b, k), s.b.nodes[k].version - 1;
    assert AsPlanned(cfg, s.b.nodes[k].models[w], plan, w);
    Split(|cfg.files[m]|, cfg.nodes);
    move := if s.c.nodes[k].perNode == PerNode(|cfg.files[m]|, cfg.nodes) then Install(k) else Route(k);
  }

  lemma LeadsThen(cfg: Config, a: Joint, first: seq<Move>, b: Joint, second: seq<Move>, c: Joint)
    returns (moves: seq<Move>)
    requires Leads(cfg, a, first, b) && Harmless(first) && Leads(cfg, b, second, c) && Harmless(second)
    ensures Leads(cfg, a, moves, c) && Harmless(moves)
  {
    LeadsOn(cfg, a, first, b, second, c);
    moves := first + second;
  }

  lemma {:induction false} CatchUp(cfg: Config, s: Joint, plan: nat -> Name, v: nat, j: nat, k: nat)
    returns (moves: seq<Move>, s': Joint)
    requires Tied(cfg, s, plan) && j < cfg.nodes && k < cfg.nodes && v < Barrier.Published(s.b.nodes[j])
    ensures Leads(cfg, s, moves, s') && Harmless(moves) && Tied(cfg, s', plan) && OnlyNode(s, s', k)
    ensures v < Barrier.Published(s'.b.nodes[k])
    ensures Barrier.Published(s.b.nodes[k]) <= v + 1 ==> Barrier.Published(s'.b.nodes[k]) <= v + 1
    decreases if v < Barrier.Published(s.b.nodes[k]) then 0 else 1 + Left(cfg, s, k)
  {
    if v < Barrier.Published(s.b.nodes[k]) {
      moves, s' := [], s;
      assert Path(cfg, [s], []);
    } else {
      var move := CatchStep(cfg, s, plan, v, j, k);
      MoveTied(cfg, s, move, plan);
      var s1 := Do(cfg, s, move);
      var rest;
      rest, s' := CatchUp(cfg, s1, plan, v, j, k);
      LeadsOne(cfg, s, move, s1);
      moves := LeadsThen(cfg, s, [move], s1, rest, s');
    }
  }

  ghost predicate AtMost(b: Barrier.State, v: int)
  {
    forall k :: 0 <= k < |b.nodes| ==> Barrier.Published(b.nodes[k]) <= v
  }

  /** The first `n` nodes, and node `j`, have the model of switch `v` in their tables. */
  ghost predicate CaughtUp(b: Barrier.State, v: nat, j: nat, n: nat)
  {
    && j < |b.nodes| && n <= |b.nodes| && v < Barrier.Published(b.nodes[j])
    && forall k: nat :: k < n ==> v < Barrier.Published(b.nodes[k])
  }

  lemma NextCaughtUp(s: Joint, s': Joint, v: nat, j: nat, n: nat)
    requires CaughtUp(s.b, v, j, n) && n < |s.b.nodes| && OnlyNode(s, s', n)
    requires v < Barrier.Published(s'.b.nodes[n])
    requires Barrier.Published(s.b.nodes[n]) <= v + 1 ==> Barrier.Published(s'.b.nodes[n]) <= v + 1
    ensures CaughtUp(s'.b, v, j, n + 1)
    ensures AtMost(s.b, v + 1) ==> AtMost(s'.b, v + 1)
  {
  }

  /** The first `n` nodes catch up with node `j`. */
  lemma {:induction false} AllCatchUp(cfg: Config, s: Joint, plan: nat -> Name, v: nat, j: nat, n: nat)
    returns (moves: seq<Move>, s': Joint)
    requires Tied(cfg, s, plan) && n <= cfg.nodes && CaughtUp(s.b, v, j, 0)
    ensures Leads(cfg, s, moves, s') && Harmless(moves) && Tied(cfg, s', plan) && SameCalls(s, s')
    ensures CaughtUp(s'.b, v, j, n) && (AtMost(s.b, v + 1) ==> AtMost(s'.b, v + 1))
  {
    if n == 0 {
      moves, s' := [], s;
      assert Path(cfg, [s], []);
    } else {
      var first, s1 := AllCatchUp(cfg, s, plan, v, j, n - 1);
      var second;
      second, s' := CatchUp(cfg, s1, plan, v, j, n - 1);
      NextCaughtUp(s1, s', v, j, n - 1);
      moves := LeadsThen(cfg, s, first, s1, second, s');
    }
  }

  /** The node that is furthest ahead. */
  lemma {:induction false} Furthest(b: Barrier.State, n: nat) returns (j: nat)
    requires 0 < n <= |b.nodes|
    ensures j < n && forall k :: 0 <= k < n ==> Barrier.Published(b.nodes[k]) <= Barrier.Published(b.nodes[j])
  {
    if n == 1 {
      j := 0;
    } else {
      j := Furthest(b, n - 1);
      if Barrier.Published(b.nodes[j]) < Barrier.Published(b.nodes[n - 1]) {
        j := n - 1;
      }
    }
  }

  /** Every model some node has put into its table is in every table. */
  ghost predicate Level(b: Barrier.State)
  {
    forall k: nat, i: nat, m :: k < |b.nodes| && Has(b, i, m) ==> Has(b, k, m)
  }

  lemma LevelAfter(cfg: Config, b: Barrier.State, plan: nat -> Name, v: int)
    requires Barrier.Inv(b) && ModelsOk(cfg, b, plan) && AtMost(b, v)
    requires forall k: nat :: k < |b.nodes| ==> v <= Barrier.Published(b.nodes[k])
    ensures Level(b)
  {
    forall k: nat, i: nat, m | k < |b.nodes| && Has(b, i, m)
      ensures Has(b, k, m)
    {
      var w: nat :| w < Barrier.Published(b.nodes[i]) && w < |b.nodes[i].models| && b.nodes[i].models[w] == m;
      assert Barrier.NodeOk(b.nodes[k]);
      assert AsPlanned(cfg, b.nodes[i].models[w], plan, w) && AsPlanned(cfg, b.nodes[k].models[w], plan, w);
    }
  }

  /** Without loading anything new, all nodes can get level. */
  lemma GetLevel(cfg: Config, s: Joint, plan: nat -> Name) returns (moves: seq<Move>, s': Joint)
    requires Tied(cfg, s, plan) && 0 < cfg.nodes
    ensures Leads(cfg, s, moves, s') && Harmless(moves) && Tied(cfg, s', plan) && SameCalls(s, s') && Level(s'.b)
  {
    var j := Furthest(s.b, cfg.nodes);
    var v := Barrier.Published(s.b.nodes[j]);
    if v <= 0 {
      moves, s' := [], s;
      assert Path(cfg, [s], []);
    } else {
      moves, s' := AllCatchUp(cfg, s, plan, v - 1, j, cfg.nodes);
      LevelAfter(cfg, s'.b, plan, v);
    }
  }

  lemma LevelReaches(cfg: Config, s: Joint, plan: nat -> Name, p: nat)
    requires Tied(cfg, s, plan) && Level(s.b)
    ensures PoolReach(cfg, s.c, p)
  {
    forall g | 0 <= g < |s.c.gets| && Client(s.c, g) && PoolOf(s.c.gets[g]) == p
      ensures Reaching(cfg, s.c, g)
    {
      assert GetOk(cfg, s.c.gets[g]);
      forall r: nat, k: nat | GoesTo(cfg, s.c, s.c.gets[g], r, k)
        ensures k < |s.c.nodes| && s.c.gets[g].name in s.c.nodes[k].table
      {
        assert k < cfg.nodes;
        assert Has(s.b, k, s.c.gets[g].name) && TableOk(s, k);
      }
    }
  }

  /** Once the nodes are level the call is driven to its end. */
  lemma EndLevel(cfg: Config, s: Joint, plan: nat -> Name, g: nat) returns (moves: seq<Move>, s': Joint)
    requires Tied(cfg, s, plan) && Level(s.b) && g < |s.c.gets| && !Starved(s.c, g)
    ensures Leads(cfg, s, moves, s') && Harmless(moves)
    ensures g < |s'.c.gets| && s'.c.gets[g].phase.Returned? && Continues(s.c.gets[g], s'.c.gets[g])
    ensures Unfailed(s.c.gets[g]) ==> s'.c.gets[g].phase.status == 0
  {
    LevelReaches(cfg, s, plan, PoolOf(s.c.gets[g]));
    NoTrapCompatible(cfg, Untrapped(0), s.c);
    var trace, steps := Drive(cfg, Untrapped(0), s.c, g);
    moves := LiftTrace(cfg, s.b, trace, steps);
    s' := Joint(trace[|steps|], s.b);
  }

  /**
   With all nodes following one plan, a call can always be brought to its end, also when it waits for a
   node that does not list its model yet, unless it is starved; and to status 0 unless something of it
   was lost. No node needs to load a further model for that.
   */
  lemma CallsEndThroughBarrier(cfg: Config, states: seq<Joint>, moves: seq<Move>, plan: nat -> Name, g: nat)
    returns (more: seq<Move>, s': Joint)
    requires PlannedRun(cfg, states, moves, plan)
    requires var s := states[|moves|]; g < |s.c.gets| && !Starved(s.c, g)
    ensures Leads(cfg, states[|moves|], more, s') && Harmless(more)
    ensures g < |s'.c.gets| && s'.c.gets[g].phase.Returned?
    ensures Continues(states[|moves|].c.gets[g], s'.c.gets[g])
    ensures Unfailed(states[|moves|].c.gets[g]) ==> s'.c.gets[g].phase.status == 0
  {
    var s := states[|moves|];
    PlannedRunTied(cfg, states, moves, plan, |moves|);
    assert GetOk(cfg, s.c.gets[g]);
    var first, s1 := GetLevel(cfg, s, plan);
    var second;
    second, s' := EndLevel(cfg, s1, plan, g);
    more := LeadsThen(cfg, s, first, s1, second, s');
  }
}
