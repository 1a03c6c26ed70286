/**
 Switches that cost no reader its shelter: a discipline on the switch steps, and forward switches behind
 the barrier, which keep half of it by themselves.
 */
module ClusterForward {
  import opened Requests
  import opened Bytes
  import opened Cluster
  import opened ClusterSafety
  import opened ClusterCalls
  import opened ClusterProgress
  import opened ClusterRoutes
  import opened ClusterReads
  import opened ClusterTheorems
  import opened ClusterSwitches
  import opened ClusterBarrier
  import Barrier

  // ----- a discipline on steps

  /** Some node serves the model, or a client's running call asks for it. */
  ghost predicate Wanted(s: State, m: Name)
  {
    (exists i: nat :: Serves(s, i, m)) || (exists g: nat :: AsksFor(s, g, m))
  }

  ghost predicate AsksFor(s: State, g: nat, m: Name)
  {
    g < |s.gets| && Client(s, g) && s.gets[g].name == m
  }

  /** Every copy that this cleanup unloads is of a model that nobody wants. */
  ghost predicate CarefulCleanup(s: State, node: nat)
  {
    forall h :: 0 <= h < |s.handlers| && Idle(s, node, h) ==> !Wanted(s, s.handlers[h].name)
  }

  /** No model is installed of which some node lists an unloaded copy, and none is unloaded that is wanted. */
  ghost predicate Careful(s: State, step: Step)
  {
    match step
    case Publish(_, name) => forall j: nat :: !Unloaded(s, j, name)
    case Cleanup(node) => CarefulCleanup(s, node)
    case _ => true
  }

  ghost predicate Disciplined(cfg: Config, steps: seq<Step>)
    requires Legal(cfg, steps)
    decreases |steps|
  {
    steps == [] ||
    var n := |steps| - 1;
    Disciplined(cfg, steps[..n]) && Careful(Final(cfg, steps[..n]), steps[n])
  }

  /** Nobody wants a model of which some node lists an unloaded copy. */
  ghost predicate Unwanted(s: State)
  {
    forall j: nat, m :: Unloaded(s, j, m) ==> !Wanted(s, m)
  }

  lemma UnwantedSheltered(cfg: Config, s: State)
    requires Unwanted(s)
    ensures AllSheltered(cfg, s)
  {
    forall i: nat, j: nat, m, req
      ensures !NodeExposed(cfg, s, i, j, m, req)
    {
    }
    forall g: nat, r: nat, j: nat
      ensures !CallExposed(cfg, s, g, r, j)
    {
      if g < |s.gets| && Client(s, g) {
        assert AsksFor(s, g, s.gets[g].name);
      }
    }
  }

  /** What is wanted after a step of a call was wanted before. */
  lemma QuietWanted(cfg: Config, s: State, step: Step, m: Name)
    requires Enabled(cfg, s, step) && Quiet(step)
    ensures Wanted(Apply(cfg, s, step), m) ==> Wanted(s, m)
  {
    var s' := Apply(cfg, s, step);
    RoutesKept(cfg, s, step);
    if i: nat :| Serves(s', i, m) {
      assert Serves(s, i, m);
    } else if g: nat :| AsksFor(s', g, m) {
      AskedBefore(cfg, s, step, g, m);
    }
  }

  lemma AskedBefore(cfg: Config, s: State, step: Step, g: nat, m: Name)
    requires Enabled(cfg, s, step) && AsksFor(Apply(cfg, s, step), g, m)
    ensures Wanted(s, m)
  {
    if g < |s.gets| {
      CallContinues(cfg, s, step, g);
      assert AsksFor(s, g, m);
    } else {
      StepContinues(cfg, s, step);
      JoinsAsChild(cfg, s, step);
      CapturedServes(cfg, s, step.node, step.reqs);
      assert Serves(s, step.node, m);
    }
  }

  lemma QuietUnwanted(cfg: Config, s: State, step: Step)
    requires Unwanted(s) && Enabled(cfg, s, step) && Quiet(step)
    ensures Unwanted(Apply(cfg, s, step))
  {
    forall j: nat, m | Unloaded(Apply(cfg, s, step), j, m)
      ensures !Wanted(Apply(cfg, s, step), m)
    {
      QuietUnloaded(cfg, s, step, j, m);
      QuietWanted(cfg, s, step, m);
    }
  }

  lemma RouteUnwanted(cfg: Config, s: State, node: nat, name: Name)
    requires Unwanted(s) && Enabled(cfg, s, StoreRoute(node, name))
    ensures Unwanted(Apply(cfg, s, StoreRoute(node, name)))
  {
    var s' := Apply(cfg, s, StoreRoute(node, name));
    forall j: nat, m | Unloaded(s', j, m)
      ensures !Wanted(s', m)
    {
      assert Unloaded(s, j, m);
      SameWanted(s, s', m);
    }
  }

  /** The same models are served and asked for. */
  lemma SameWanted(s: State, s': State, m: Name)
    requires s'.gets == s.gets && |s'.nodes| == |s.nodes| && |s'.handlers| == |s.handlers|
    requires forall i :: 0 <= i < |s.nodes| ==> s'.nodes[i].current == s.nodes[i].current
    requires forall h :: 0 <= h < |s.handlers| ==> s'.handlers[h].name == s.handlers[h].name
    ensures Wanted(s', m) ==> Wanted(s, m)
  {
    if i: nat :| Serves(s', i, m) {
      assert Serves(s, i, m);
    } else if g: nat :| AsksFor(s', g, m) {
      assert AsksFor(s, g, m);
    }
  }

  lemma PublishUnwanted(cfg: Config, s: State, node: nat, name: Name)
    requires Safe(cfg, s) && Unwanted(s) && Enabled(cfg, s, Publish(node, name)) && Careful(s, Publish(node, name))
    ensures Unwanted(Apply(cfg, s, Publish(node, name)))
  {
    var s' := Apply(cfg, s, Publish(node, name));
    forall j: nat, m | Unloaded(s', j, m)
      ensures !Wanted(s', m)
    {
      PublishUnloaded(cfg, s, node, name, j, m);
      PublishWanted(cfg, s, node, name, m);
    }
  }

  lemma PublishUnloaded(cfg: Config, s: State, node: nat, name: Name, j: nat, m: Name)
    requires Safe(cfg, s) && Enabled(cfg, s, Publish(node, name))
    requires Unloaded(Apply(cfg, s, Publish(node, name)), j, m)
    ensures Unloaded(s, j, m)
  {
    if !(j == node && m == name) && j < |s.nodes| {
      assert NodeOk(cfg, s, j);
    }
  }

  lemma PublishWanted(cfg: Config, s: State, node: nat, name: Name, m: Name)
    requires Safe(cfg, s) && Enabled(cfg, s, Publish(node, name))
    ensures Wanted(Apply(cfg, s, Publish(node, name)), m) ==> m == name || Wanted(s, m)
  {
    var s' := Apply(cfg, s, Publish(node, name));
    if i: nat :| Serves(s', i, m) {
      if i != node {
        assert NodeOk(cfg, s, i);
        assert Serves(s, i, m);
      }
    } else if g: nat :| AsksFor(s', g, m) {
      assert AsksFor(s, g, m);
    }
  }

  lemma CleanupUnwanted(cfg: Config, s: State, node: nat)
    requires Safe(cfg, s) && Unwanted(s) && Enabled(cfg, s, Cleanup(node)) && CarefulCleanup(s, node)
    ensures Unwanted(Apply(cfg, s, Cleanup(node)))
  {
    var s' := Apply(cfg, s, Cleanup(node));
    forall j: nat, m | Unloaded(s', j, m)
      ensures !Wanted(s', m)
    {
      assert NodeOk(cfg, s, j);
      var h := s.nodes[j].table[m];
      assert Unloaded(s, j, m) || (Idle(s, node, h) && s.handlers[h].name == m);
      SameWanted(s, s', m);
    }
  }

  lemma StepUnwanted(cfg: Config, s: State, step: Step)
    requires Safe(cfg, s) && Unwanted(s) && Enabled(cfg, s, step) && Careful(s, step)
    ensures Unwanted(Apply(cfg, s, step))
  {
    if Quiet(step) {
      QuietUnwanted(cfg, s, step);
    } else if step.StoreRoute? {
      RouteUnwanted(cfg, s, step.node, step.name);
    } else if step.Publish? {
      PublishUnwanted(cfg, s, step.node, step.name);
    } else {
      CleanupUnwanted(cfg, s, step.node);
    }
  }

  /**
   Every run that keeps the discipline is calm: no model is installed of which some node lists an unloaded
   copy, and a cleanup unloads only models that no node serves and no client's running call asks for.
   */
  lemma {:induction false} DisciplinedIsCalm(cfg: Config, steps: seq<Step>)
    requires Legal(cfg, steps) && Disciplined(cfg, steps)
    ensures Reaches(cfg, steps, Final(cfg, steps)) && AllSheltered(cfg, Final(cfg, steps))
    ensures Unwanted(Final(cfg, steps))
  {
    if steps == [] {
      UnwantedSheltered(cfg, Final(cfg, steps));
    } else {
      var n := |steps| - 1;
      DisciplinedIsCalm(cfg, steps[..n]);
      DisciplinedNext(cfg, steps[..n], Final(cfg, steps[..n]), steps[n]);
      assert steps == steps[..n] + [steps[n]];
    }
  }

  lemma DisciplinedNext(cfg: Config, front: seq<Step>, s: State, step: Step)
    requires Reaches(cfg, front, s) && Unwanted(s) && Enabled(cfg, s, step) && Careful(s, step)
    ensures Reaches(cfg, front + [step], Apply(cfg, s, step))
    ensures Unwanted(Apply(cfg, s, step)) && AllSheltered(cfg, Apply(cfg, s, step))
  {
    UnwantedSheltered(cfg, s);
    ReachSound(cfg, front, s);
    ReachNext(cfg, front, s, step);
    StepUnwanted(cfg, s, step);
    UnwantedSheltered(cfg, Apply(cfg, s, step));
  }

  // ----- forward switches behind the barrier

  ghost predicate Distinct(plan: nat -> Name)
  {
    forall v: nat, w: nat :: plan(v) == plan(w) ==> v == w
  }

  ghost predicate CarefulMove(s: Joint, move: Move)
  {
    move.Serve? && move.step.Cleanup? ==> CarefulCleanup(s.c, move.step.node)
  }

  /** A table lists nothing but models the node has installed. */
  ghost predicate ListsInstalled(s: Joint, k: nat)
    requires k < |s.c.nodes|
  {
    forall m :: m in s.c.nodes[k].table ==> Has(s.b, k, m)
  }

  /** A node that has installed a model serves the last one. */
  ghost predicate ServesLatest(s: Joint, plan: nat -> Name, k: nat)
    requires k < |s.b.nodes|
  {
    Barrier.Published(s.b.nodes[k]) > 0 ==> Serves(s.c, k, plan(Barrier.Published(s.b.nodes[k]) - 1))
  }

  ghost predicate InStep(s: Joint, plan: nat -> Name)
  {
    && |s.c.nodes| == |s.b.nodes|
    && forall k: nat :: k < |s.c.nodes| ==> ListsInstalled(s, k) && ServesLatest(s, plan, k)
  }

  lemma ServeInStep(cfg: Config, s: Joint, step: Step, plan: nat -> Name)
    requires InStep(s, plan) && Can(cfg, s, Serve(step))
    ensures InStep(Do(cfg, s, Serve(step)), plan)
  {
    var s' := Do(cfg, s, Serve(step));
    ServeSame(cfg, s.c, step);
    forall k: nat | k < |s'.c.nodes|
      ensures ListsInstalled(s', k) && ServesLatest(s', plan, k)
    {
      assert ListsInstalled(s, k) && ServesLatest(s, plan, k);
    }
  }

  lemma ServeSame(cfg: Config, s: State, step: Step)
    requires Enabled(cfg, s, step) && !step.StoreRoute? && !step.Publish?
    ensures var s' := Apply(cfg, s, step);
            && s'.nodes == s.nodes && |s'.handlers| == |s.handlers|
            && forall h :: 0 <= h < |s.handlers| ==> s'.handlers[h].name == s.handlers[h].name
  {
    if Quiet(step) {
      RoutesKept(cfg, s, step);
    }
  }

  lemma SyncInStep(cfg: Config, s: Joint, sync: Barrier.Step, plan: nat -> Name)
    requires InStep(s, plan) && Barrier.Inv(s.b) && Can(cfg, s, Sync(sync))
    ensures InStep(Do(cfg, s, Sync(sync)), plan)
  {
    var s' := Do(cfg, s, Sync(sync));
    BarrierGrows(s.b, sync);
    forall k: nat | k < |s'.c.nodes|
      ensures ListsInstalled(s', k) && ServesLatest(s', plan, k)
    {
      assert ListsInstalled(s, k) && ServesLatest(s, plan, k);
      assert Barrier.NodeOk(s.b.nodes[k]);
    }
  }

  lemma RouteInStep(cfg: Config, s: Joint, i: nat, plan: nat -> Name)
    requires InStep(s, plan) && Can(cfg, s, Route(i))
    ensures InStep(Do(cfg, s, Route(i)), plan)
  {
    var s' := Do(cfg, s, Route(i));
    forall k: nat | k < |s'.c.nodes|
      ensures ListsInstalled(s', k) && ServesLatest(s', plan, k)
    {
      assert ListsInstalled(s, k) && ServesLatest(s, plan, k);
    }
  }

  lemma InstallInStep(cfg: Config, s: Joint, i: nat, plan: nat -> Name)
    requires InStep(s, plan) && Tied(cfg, s, plan) && Can(cfg, s, Install(i))
    ensures InStep(Do(cfg, s, Install(i)), plan)
  {
    var s' := Do(cfg, s, Install(i));
    BarrierGrows(s.b, Barrier.Publish(i));
    InstalledHas(s.b, i);
    NextPlanned(cfg, s, plan, i);
    forall k: nat | k < |s'.c.nodes|
      ensures ListsInstalled(s', k) && ServesLatest(s', plan, k)
    {
      assert ListsInstalled(s, k) && ServesLatest(s, plan, k);
      InstallLists(cfg, s, i, k);
      InstallServes(cfg, s, i, k, plan);
    }
  }

  lemma InstallLists(cfg: Config, s: Joint, i: nat, k: nat)
    requires Can(cfg, s, Install(i)) && k < |s.c.nodes| && ListsInstalled(s, k)
    requires Grows(s.b, Do(cfg, s, Install(i)).b) && Has(Do(cfg, s, Install(i)).b, i, Next(s.b, i))
    ensures k < |Do(cfg, s, Install(i)).c.nodes| && ListsInstalled(Do(cfg, s, Install(i)), k)
  {
  }

  lemma InstallServes(cfg: Config, s: Joint, i: nat, k: nat, plan: nat -> Name)
    requires Can(cfg, s, Install(i)) && k < |s.b.nodes| && ServesLatest(s, plan, k)
    requires Next(s.b, i) == plan(s.b.nodes[i].version - 1)
    ensures k < |Do(cfg, s, Install(i)).b.nodes| && ServesLatest(Do(cfg, s, Install(i)), plan, k)
  {
  }

  lemma NextPlanned(cfg: Config, s: Joint, plan: nat -> Name, i: nat)
    requires Tied(cfg, s, plan) && Ready(s.b, i)
    ensures Next(s.b, i) == plan(s.b.nodes[i].version - 1)
  {
    assert AsPlanned(cfg, s.b.nodes[i].models[s.b.nodes[i].version - 1], plan, s.b.nodes[i].version - 1);
  }

  // ----- what the barrier keeps of the discipline

  /** The model a node lists but does not serve is older than the one it serves. */
  lemma UnservedIsOlder(cfg: Config, s: Joint, plan: nat -> Name, j: nat, m: Name) returns (w: nat)
    requires Tied(cfg, s, plan) && InStep(s, plan) && j < cfg.nodes && m in s.c.nodes[j].table
    requires !Serves(s.c, j, m)
    ensures m == plan(w) && w + 1 < Barrier.Published(s.b.nodes[j])
  {
    assert ListsInstalled(s, j) && ServesLatest(s, plan, j);
    w :| w < Barrier.Published(s.b.nodes[j]) && w < |s.b.nodes[j].models| && s.b.nodes[j].models[w] == m;
    assert AsPlanned(cfg, s.b.nodes[j].models[w], plan, w);
  }

  lemma UnloadedUnserved(cfg: Config, s: State, j: nat, m: Name)
    requires Safe(cfg, s) && Unloaded(s, j, m)
    ensures !Serves(s, j, m)
  {
    assert NodeOk(cfg, s, j);
  }

  /** No node gets more than one switch ahead of another. */
  lemma OneAhead(b: Barrier.State, i: nat, j: nat)
    requires Barrier.Inv(b) && i < |b.nodes| && j < |b.nodes|
    ensures b.nodes[j].version <= b.nodes[i].version + 1
    ensures b.nodes[i].pc == Barrier.Passed ==> b.nodes[j].version <= b.nodes[i].version
    ensures Barrier.Published(b.nodes[j]) <= Barrier.Published(b.nodes[i]) + 1
  {
    assert Barrier.NodeOk(b.nodes[i]) && Barrier.NodeOk(b.nodes[j]);
    if b.nodes[j].version > 0 {
      assert Barrier.KeyOk(b, Barrier.Key(b.nodes[j].version - 1, i));
    }
  }

  /**
   With different models for different switches, no node ever installs one of which another lists an
   unloaded copy: that one has not come further than the switch itself.
   */
  lemma InstallIsCareful(cfg: Config, s: Joint, plan: nat -> Name, i: nat)
    requires Tied(cfg, s, plan) && InStep(s, plan) && Distinct(plan) && Ready(s.b, i)
    ensures forall j: nat :: !Unloaded(s.c, j, Next(s.b, i))
  {
    forall j: nat
      ensures !Unloaded(s.c, j, Next(s.b, i))
    {
      if Unloaded(s.c, j, Next(s.b, i)) {
        UnloadedUnserved(cfg, s.c, j, Next(s.b, i));
        var w := UnservedIsOlder(cfg, s, plan, j, Next(s.b, i));
        NextPlanned(cfg, s, plan, i);
        OneAhead(s.b, i, j);
      }
    }
  }

  lemma LastButOne(cfg: Config, s: Joint, plan: nat -> Name, j: nat, h: nat, k: nat)
    requires Tied(cfg, s, plan) && InStep(s, plan) && k < cfg.nodes
    requires Distinct(plan) && Idle(s.c, j, h) && Serves(s.c, k, s.c.handlers[h].name)
    ensures var v := Barrier.Published(s.b.nodes[j]);
            v > 1 && s.c.handlers[h].name == plan(v - 2) && Barrier.Published(s.b.nodes[k]) == v - 1
  {
    var m := s.c.handlers[h].name;
    assert NodeOk(cfg, s.c, j) && !Serves(s.c, j, m);
    var w := UnservedIsOlder(cfg, s, plan, j, m);
    assert TableOk(s, k) && ServesLatest(s, plan, k);
    OneAhead(s.b, k, j);
    var u: nat :| u < Barrier.Published(s.b.nodes[k]) && u < |s.b.nodes[k].models| && s.b.nodes[k].models[u] == m;
    assert plan(Barrier.Published(s.b.nodes[k]) - 1) == m;
  }

  // ----- every such run

  ghost predicate Forward(cfg: Config, s: Joint, plan: nat -> Name)
  {
    Tied(cfg, s, plan) && InStep(s, plan) && Unwanted(s.c)
  }

  /** The cluster's part of a move, if it has one. */
  function Part(s: Joint, move: Move): (step: Option<Step>)
    requires move.Route? || move.Install? ==> Ready(s.b, move.i)
  {
    match move
    case Serve(step) => Some(step)
    case Sync(_) => None
    case Route(i) => Some(StoreRoute(i, Next(s.b, i)))
    case Install(i) => Some(Publish(i, Next(s.b, i)))
  }

  lemma MoveInStep(cfg: Config, s: Joint, move: Move, plan: nat -> Name)
    requires Tied(cfg, s, plan) && InStep(s, plan) && Can(cfg, s, move)
    ensures InStep(Do(cfg, s, move), plan)
  {
    match move
    case Serve(step) => ServeInStep(cfg, s, step, plan);
    case Sync(sync) => SyncInStep(cfg, s, sync, plan);
    case Route(i) => RouteInStep(cfg, s, i, plan);
    case Install(i) => InstallInStep(cfg, s, i, plan);
  }

  lemma MoveForward(cfg: Config, s: Joint, move: Move, plan: nat -> Name)
    requires Forward(cfg, s, plan) && Distinct(plan) && Can(cfg, s, move)
    requires Planned(s, move, plan) && CarefulMove(s, move)
    ensures Forward(cfg, Do(cfg, s, move), plan)
  {
    MoveTied(cfg, s, move, plan);
    MoveInStep(cfg, s, move, plan);
    if move.Install? {
      InstallIsCareful(cfg, s, plan, move.i);
    }
    if Part(s, move).Some? {
      StepUnwanted(cfg, s.c, Part(s, move).value);
    }
  }

  lemma {:induction false} PlannedRunInStep(cfg: Config, states: seq<Joint>, moves: seq<Move>, plan: nat -> Name,
                                            n: nat)
    requires PlannedRun(cfg, states, moves, plan) && n <= |moves|
    ensures InStep(states[n], plan)
  {
    if n > 0 {
      PlannedRunInStep(cfg, states, moves, plan, n - 1);
      PlannedRunTied(cfg, states, moves, plan, n - 1);
      assert Moves(cfg, states[n - 1], moves[n - 1], states[n]);
      MoveInStep(cfg, states[n - 1], moves[n - 1], plan);
    }
  }

  /**
   What is left to the sleeps: on every path with a different model for each switch, a cleanup unloads only
   models from before its node's own, and another node can still serve one of them only if it is the last but
   one, and that node has not installed the last one yet.
   */
  lemma CleanupLagsOne(cfg: Config, states: seq<Joint>, moves: seq<Move>, plan: nat -> Name, j: nat, h: nat, k: nat)
    requires PlannedRun(cfg, states, moves, plan) && Distinct(plan) && k < cfg.nodes
    requires var s := states[|moves|]; Idle(s.c, j, h) && Serves(s.c, k, s.c.handlers[h].name)
    ensures var s := states[|moves|];
            && |s.b.nodes| == cfg.nodes && j < cfg.nodes
            && var v := Barrier.Published(s.b.nodes[j]);
               v > 1 && s.c.handlers[h].name == plan(v - 2) && Barrier.Published(s.b.nodes[k]) == v - 1
  {
    PlannedRunTied(cfg, states, moves, plan, |moves|);
    PlannedRunInStep(cfg, states, moves, plan, |moves|);
    LastButOne(cfg, states[|moves|], plan, j, h, k);
  }

  /** The steps of the cluster on a path of both machines, up to move `n`. */
  lemma {:induction false} ForwardRun(cfg: Config, states: seq<Joint>, moves: seq<Move>, plan: nat -> Name, n: nat)
    returns (steps: seq<Step>)
    requires PlannedRun(cfg, states, moves, plan) && Distinct(plan) && n <= |moves|
    requires forall k :: 0 <= k < |moves| ==> CarefulMove(states[k], moves[k])
    ensures Reaches(cfg, steps, states[n].c) && Forward(cfg, states[n], plan)
  {
    if n == 0 {
      steps := [];
      StartForward(cfg, plan);
    } else {
      var front := ForwardRun(cfg, states, moves, plan, n - 1);
      assert Moves(cfg, states[n - 1], moves[n - 1], states[n]) && Planned(states[n - 1], moves[n - 1], plan);
      steps := ForwardOne(cfg, front, states[n - 1], moves[n - 1], states[n], plan);
    }
  }

  lemma ForwardOne(cfg: Config, front: seq<Step>, s: Joint, move: Move, s': Joint, plan: nat -> Name)
    returns (steps: seq<Step>)
    requires Reaches(cfg, front, s.c) && Forward(cfg, s, plan) && Distinct(plan)
    requires Moves(cfg, s, move, s') && Planned(s, move, plan) && CarefulMove(s, move)
    ensures Reaches(cfg, steps, s'.c) && Forward(cfg, s', plan)
  {
    MoveForward(cfg, s, move, plan);
    steps := LongerRun(cfg, front, s, move);
  }

  lemma StartForward(cfg: Config, plan: nat -> Name)
    ensures Forward(cfg, Start(cfg), plan) && Reaches(cfg, [], Start(cfg).c)
  {
    RunsAreSound(cfg, []);
    Barrier.RunsInv(cfg.nodes, []);
  }

  lemma LongerRun(cfg: Config, steps: seq<Step>, s: Joint, move: Move) returns (steps': seq<Step>)
    requires Reaches(cfg, steps, s.c) && Unwanted(s.c) && Can(cfg, s, move)
    ensures Reaches(cfg, steps', Do(cfg, s, move).c)
  {
    if Part(s, move).Some? {
      UnwantedSheltered(cfg, s.c);
      ReachNext(cfg, steps, s.c, Part(s, move).value);
      steps' := steps + [Part(s, move).value];
    } else {
      steps' := steps;
    }
  }

  /**
   Forward switches behind the barrier, to a different model each time, cost no reader its shelter if only
   the cleanups keep to models that no node serves and no client's running call asks for: the cluster's run
   is calm, so that all results on answers apply to it.
   */
  lemma ForwardSwitchesAreCalm(cfg: Config, states: seq<Joint>, moves: seq<Move>, plan: nat -> Name)
    returns (steps: seq<Step>)
    requires PlannedRun(cfg, states, moves, plan) && Distinct(plan)
    requires forall k :: 0 <= k < |moves| ==> CarefulMove(states[k], moves[k])
    ensures Legal(cfg, steps) && Final(cfg, steps) == states[|moves|].c
    ensures (forall i: nat :: CalmRun(cfg, steps, i)) && AllSheltered(cfg, states[|moves|].c)
  {
    steps := ForwardRun(cfg, states, moves, plan, |moves|);
    UnwantedSheltered(cfg, states[|moves|].c);
  }

  /**
   And so, with models of equal slice count and no stranded slice, every client that gets status 0 on such a
   path has the plain loop's answer on the one model its call captured, whatever was installed meanwhile.
   */
  lemma ForwardGetRefines(cfg: Config, states: seq<Joint>, moves: seq<Move>, plan: nat -> Name, slices: nat, g: nat)
    requires PlannedRun(cfg, states, moves, plan) && Distinct(plan)
    requires forall k :: 0 <= k < |moves| ==> CarefulMove(states[k], moves[k])
    requires IntSized(cfg) && SameSliceCount(cfg, slices) && slices % cfg.nodes < slices / cfg.nodes
    requires Succeeded(states[|moves|].c, g) && states[|moves|].c.gets[g].name in cfg.files
    requires var x := states[|moves|].c.gets[g];
             forall i :: 0 <= i < |x.reqs| ==> InFile(cfg.files[x.name], x.reqs[i])
    ensures var x := states[|moves|].c.gets[g]; x.phase.data == SequentialReads(cfg.files[x.name], x.reqs)
  {
    var steps := ForwardSwitchesAreCalm(cfg, states, moves, plan);
    GetRefinesPlainLoop(cfg, steps, slices, g);
  }
}
