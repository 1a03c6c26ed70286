/**
 Where the requests of running and new calls go, and when one goes to a node that does not load its slice:
 a stranded slice, or a route stored for a model with another number of slices.
 */
module ClusterRoutes {
  import opened Bytes
  import opened Requests
  import opened Cluster
  import opened ClusterSafety
  import opened ClusterCalls
  import opened ClusterPools
  import opened ClusterProgress

  // ----- requests on their way

  ghost predicate Serves(s: State, i: nat, m: Name)
  {
    && i < |s.nodes| && s.nodes[i].current.Some? && s.nodes[i].current.value < |s.handlers|
    && s.handlers[s.nodes[i].current.value].name == m
  }

  /** There is at least one byte of the file to answer this request with. */
  predicate Asks(cfg: Config, m: Name, req: SliceRequest)
  {
    Servable(cfg, m) && Inside(cfg, m, req) && req.len > 0
  }

  /** A request from node `i` for model `m` can be taken up at node `j`. */
  predicate Lists(s: State, i: nat, j: nat, m: Name)
  {
    j == i || (j < |s.nodes| && m in s.nodes[j].table)
  }

  /** A new call at node `i`, which serves `m`, would send this request to node `j`, which lists `m`. */
  ghost predicate NodeSends(cfg: Config, s: State, i: nat, j: nat, m: Name, req: SliceRequest)
  {
    && Serves(s, i, m) && Sends(cfg, s, i, req.partition, j) && Admissible([req]) && Asks(cfg, m, req)
    && Lists(s, i, j, m) && !Drained(s, 2 * i)
  }

  /** Task `j` of the call, if it has tasks yet, is neither with a worker nor with another node. */
  predicate Undelivered(x: Get, j: nat)
  {
    || x.phase.Routing?
    || (j < |x.tasks| && (x.tasks[j].stage.Unsent? || x.tasks[j].stage.Queued? || x.tasks[j].stage.Sent?))
  }

  /**
   Request `r` of a client's running call, of which nothing was lost, goes to node `j`, which lists the
   call's model, and is not there yet.
   */
  ghost predicate CallSends(cfg: Config, s: State, g: nat, r: nat, j: nat)
  {
    && g < |s.gets| && Client(s, g) && !s.gets[g].faild && !Starved(s, g)
    && GoesTo(cfg, s, s.gets[g], r, j) && Undelivered(s.gets[g], j)
    && Asks(cfg, s.gets[g].name, s.gets[g].reqs[r]) && Lists(s, s.gets[g].node, j, s.gets[g].name)
  }

  // ----- steps that change nothing about them

  /** The steps that neither install a model nor change where requests go. */
  predicate KeepsRoutes(step: Step)
  {
    !step.StoreRoute? && !step.Publish?
  }

  /** The steps that do not unload one either. */
  predicate Quiet(step: Step)
  {
    KeepsRoutes(step) && !step.Cleanup?
  }

  lemma LosslessQuiet(more: seq<Step>)
    requires Lossless(more)
    ensures forall i :: 0 <= i < |more| ==> Quiet(more[i])
  {
  }

  lemma RoutesKept(cfg: Config, s: State, step: Step)
    requires Enabled(cfg, s, step) && KeepsRoutes(step)
    ensures var s' := Apply(cfg, s, step);
            && s'.nodes == s.nodes && |s'.handlers| == |s.handlers|
            && forall h :: 0 <= h < |s.handlers| ==> s'.handlers[h].name == s.handlers[h].name
  {
    if Actor(step).Some? {
      ActorKeepsNodes(cfg, s, step);
    }
  }

  lemma NodeSentBefore(cfg: Config, s: State, step: Step, i: nat, j: nat, m: Name, req: SliceRequest)
    requires Safe(cfg, s) && Enabled(cfg, s, step) && KeepsRoutes(step)
    requires NodeSends(cfg, Apply(cfg, s, step), i, j, m, req)
    ensures NodeSends(cfg, s, i, j, m, req)
  {
    RoutesKept(cfg, s, step);
    if Drained(s, 2 * i) {
      StepDrained(cfg, s, step, 2 * i);
    }
  }

  lemma SwitchUndelivered(cfg: Config, s: State, step: Step, g: nat, j: nat)
    requires Enabled(cfg, s, step) && Switches(step) && g < |s.gets| == |Apply(cfg, s, step).gets|
    ensures Undelivered(Apply(cfg, s, step).gets[g], j) ==> Undelivered(s.gets[g], j)
  {
  }

  lemma StartUndelivered(cfg: Config, s: State, step: Step, j: nat)
    requires Enabled(cfg, s, step) && MovesStart(step) && step.g < |s.gets| == |Apply(cfg, s, step).gets|
    requires step.Push? ==> StageOk(s.gets[step.g], s.gets[step.g].phase.next)
    ensures Undelivered(Apply(cfg, s, step).gets[step.g], j) ==> Undelivered(s.gets[step.g], j)
  {
    if step.RouteOne? {
      RouteMoves(cfg, s, step.g);
    } else if step.Unlock? {
      UnlockMoves(cfg, s, step.g);
    } else if step.Push? {
      PushMoves(cfg, s, step.g);
    }
  }

  lemma MovedUndelivered(cfg: Config, s: State, step: Step, g: nat, j: nat)
    requires Safe(cfg, s) && Enabled(cfg, s, step) && MovesOne(step) && g < |s.gets| == |Apply(cfg, s, step).gets|
    ensures Undelivered(Apply(cfg, s, step).gets[g], j) ==> Undelivered(s.gets[g], j)
  {
    if MovesStart(step) {
      if step.Push? {
        StageKnown(cfg, s, step.g, s.gets[step.g].phase.next);
      }
      StepMoves(cfg, s, step);
      StartUndelivered(cfg, s, step, j);
    } else {
      TaskStepMoves(cfg, s, step);
      TaskUndelivered(s.gets[step.g], Apply(cfg, s, step).gets[step.g], step.k, j);
    }
  }

  lemma TaskUndelivered(x: Get, y: Get, k: nat, j: nat)
    requires TaskMoves(x, y, k)
    ensures Undelivered(y, j) ==> Undelivered(x, j)
  {
  }

  lemma EndedUndelivered(s: State, s': State, g: nat, c: nat, j: nat)
    requires Ends(s, s', g) && c < |s.gets|
    ensures Undelivered(s'.gets[c], j) ==> Undelivered(s.gets[c], j)
  {
    assert s'.gets[c] == s.gets[c].(phase := s'.gets[c].phase, tasks := s'.gets[c].tasks);
    if j < |s.gets[c].tasks| {
      assert s'.gets[c].tasks[j] == s.gets[c].tasks[j] || s'.gets[c].tasks[j].stage.Replied?;
    }
  }

  lemma EndStepUndelivered(cfg: Config, s: State, step: Step, g: nat, j: nat)
    requires Enabled(cfg, s, step) && (step.Succeed? || step.GiveUp?)
    requires g < |s.gets| && g < |Apply(cfg, s, step).gets|
    ensures Undelivered(Apply(cfg, s, step).gets[g], j) ==> Undelivered(s.gets[g], j)
  {
    if step.Succeed? {
      SucceedEnds(cfg, s, step.g);
    } else {
      GiveUpEnds(cfg, s, step.g);
    }
    EndedUndelivered(s, Apply(cfg, s, step), step.g, g, j);
  }

  lemma JoinStepUndelivered(cfg: Config, s: State, step: Step, g: nat, j: nat)
    requires Enabled(cfg, s, step) && (step.Deliver? || step.Capture?)
    requires g < |s.gets| && g < |Apply(cfg, s, step).gets|
    ensures Undelivered(Apply(cfg, s, step).gets[g], j) ==> Undelivered(s.gets[g], j)
  {
    if step.Deliver? {
      DeliverJoins(cfg, s, step.g, step.k);
    } else {
      CaptureStarts(cfg, s, step.node, step.reqs);
    }
  }

  /** A task that has not been delivered after a step had not been before. */
  lemma UndeliveredBefore(cfg: Config, s: State, step: Step, g: nat, j: nat)
    requires Safe(cfg, s) && Enabled(cfg, s, step) && g < |s.gets| && g < |Apply(cfg, s, step).gets|
    ensures Undelivered(Apply(cfg, s, step).gets[g], j) ==> Undelivered(s.gets[g], j)
  {
    if MovesOne(step) {
      StepContinues(cfg, s, step);
      MovedUndelivered(cfg, s, step, g, j);
    } else if step.Deliver? || step.Capture? {
      JoinStepUndelivered(cfg, s, step, g, j);
    } else if Switches(step) {
      SwitchContinues(cfg, s, step);
      SwitchUndelivered(cfg, s, step, g, j);
    } else {
      EndStepUndelivered(cfg, s, step, g, j);
    }
  }

  lemma GoalsBefore(cfg: Config, s: State, step: Step, g: nat)
    requires Enabled(cfg, s, step) && KeepsRoutes(step) && g < |s.gets| && s.gets[g].parent.None?
    ensures g < |Apply(cfg, s, step).gets| && SameGoals(cfg, s, Apply(cfg, s, step), g)
  {
    if Actor(step).Some? {
      GoalsKept(cfg, s, step, g);
    } else {
      RoutesKept(cfg, s, step);
      StepContinues(cfg, s, step);
      assert Continues(s.gets[g], Apply(cfg, s, step).gets[g]);
    }
  }

  lemma CallSentBefore(cfg: Config, s: State, step: Step, g: nat, r: nat, j: nat)
    requires Sound(cfg, s) && Enabled(cfg, s, step) && KeepsRoutes(step) && g < |s.gets|
    requires CallSends(cfg, Apply(cfg, s, step), g, r, j)
    ensures CallSends(cfg, s, g, r, j)
    ensures Apply(cfg, s, step).gets[g].name == s.gets[g].name && Apply(cfg, s, step).gets[g].reqs == s.gets[g].reqs
    ensures Apply(cfg, s, step).gets[g].node == s.gets[g].node
  {
    CallContinues(cfg, s, step, g);
    RoutesKept(cfg, s, step);
    GoalsBefore(cfg, s, step, g);
    UndeliveredBefore(cfg, s, step, g, j);
    if Starved(s, g) {
      StarvedNext(cfg, s, step, g);
    }
    assert GoesTo(cfg, s, s.gets[g], r, j);
  }

  /** A new call sends its requests where its node would have sent them. */
  lemma NewCallSends(cfg: Config, s: State, node: nat, reqs: seq<SliceRequest>, r: nat, j: nat)
    requires Sound(cfg, s) && Enabled(cfg, s, Capture(node, reqs))
    requires CallSends(cfg, Apply(cfg, s, Capture(node, reqs)), |s.gets|, r, j)
    ensures var x := Apply(cfg, s, Capture(node, reqs)).gets[|s.gets|];
            x.node == node && x.reqs == reqs && r < |reqs| && NodeSends(cfg, s, node, j, x.name, reqs[r])
  {
    OneOfMany(reqs, r);
    if Drained(s, 2 * node) {
      StepDrained(cfg, s, Capture(node, reqs), 2 * node);
    }
  }

  lemma OneOfMany(reqs: seq<SliceRequest>, r: nat)
    requires Admissible(reqs) && r < |reqs|
    ensures Admissible([reqs[r]])
  {
    assert Pos([reqs[r]], 1) == reqs[r].len;
  }

  /** Only `Capture` starts a client's call. */
  lemma JoinsAsChild(cfg: Config, s: State, step: Step)
    requires Enabled(cfg, s, step)
    ensures var s' := Apply(cfg, s, step);
            |s'.gets| > |s.gets| && s'.gets[|s.gets|].parent.None? ==> step.Capture?
  {
    if step.Deliver? {
      DeliverJoins(cfg, s, step.g, step.k);
    } else {
      StepContinues(cfg, s, step);
    }
  }

  // ----- misrouted requests

  ghost predicate NodeMisrouted(cfg: Config, s: State, i: nat, j: nat, m: Name, req: SliceRequest)
  {
    NodeSends(cfg, s, i, j, m, req) && !HasSlice(cfg, m, j, req.partition)
  }

  ghost predicate CallMisrouted(cfg: Config, s: State, g: nat, r: nat, j: nat)
  {
    CallSends(cfg, s, g, r, j) && !HasSlice(cfg, s.gets[g].name, j, s.gets[g].reqs[r].partition)
  }

  /** No request of node `i`'s clients, running or new, is on its way to a node that takes it up without its slice. */
  ghost predicate Straight(cfg: Config, s: State, i: nat)
  {
    && (forall j: nat, m, req :: !NodeMisrouted(cfg, s, i, j, m, req))
    && (forall g: nat, r: nat, j: nat :: g < |s.gets| && s.gets[g].node == i ==> !CallMisrouted(cfg, s, g, r, j))
  }

  /** Node `i`'s requests went straight before each step. */
  ghost predicate StraightRun(cfg: Config, steps: seq<Step>, i: nat)
    requires Legal(cfg, steps)
    decreases |steps|
  {
    steps == [] ||
    var n := |steps| - 1;
    StraightRun(cfg, steps[..n], i) && Straight(cfg, Final(cfg, steps[..n]), i)
  }

  /** Only storing a route or installing a model can lead a request astray. */
  lemma StraightKept(cfg: Config, s: State, step: Step, i: nat)
    requires Sound(cfg, s) && Straight(cfg, s, i) && Enabled(cfg, s, step) && KeepsRoutes(step)
    ensures Straight(cfg, Apply(cfg, s, step), i)
  {
    var s' := Apply(cfg, s, step);
    forall j: nat, m, req | NodeMisrouted(cfg, s', i, j, m, req)
      ensures false
    {
      NodeSentBefore(cfg, s, step, i, j, m, req);
      assert NodeMisrouted(cfg, s, i, j, m, req);
    }
    forall g: nat, r: nat, j: nat | g < |s'.gets| && s'.gets[g].node == i && CallMisrouted(cfg, s', g, r, j)
      ensures false
    {
      CallStraight(cfg, s, step, i, g, r, j);
    }
  }

  lemma CallStraight(cfg: Config, s: State, step: Step, i: nat, g: nat, r: nat, j: nat)
    requires Sound(cfg, s) && Straight(cfg, s, i) && Enabled(cfg, s, step) && KeepsRoutes(step)
    requires g < |Apply(cfg, s, step).gets| && Apply(cfg, s, step).gets[g].node == i
    ensures !CallMisrouted(cfg, Apply(cfg, s, step), g, r, j)
  {
    var s' := Apply(cfg, s, step);
    if CallMisrouted(cfg, s', g, r, j) {
      if g < |s.gets| {
        CallSentBefore(cfg, s, step, g, r, j);
        assert CallMisrouted(cfg, s, g, r, j);
      } else {
        StepContinues(cfg, s, step);
        JoinsAsChild(cfg, s, step);
        NewCallSends(cfg, s, step.node, step.reqs, r, j);
        assert NodeMisrouted(cfg, s, i, j, s'.gets[g].name, step.reqs[r]);
      }
    }
  }

  // ----- and so every request arrives where its slice is

  /** Each request of this call is with a node that has its slice, or still on its way. */
  ghost predicate Aimed(cfg: Config, x: Get)
  {
    forall r: nat :: r < |x.route| && r < |x.reqs| && Asks(cfg, x.name, x.reqs[r]) ==>
      HasSlice(cfg, x.name, x.route[r], x.reqs[r].partition) || (Active(x) && Undelivered(x, x.route[r]))
  }

  ghost predicate AllAimed(cfg: Config, s: State, i: nat)
  {
    forall g :: 0 <= g < |s.gets| && s.gets[g].node == i && s.gets[g].parent.None? && !s.gets[g].faild ==>
      Aimed(cfg, s.gets[g])
  }

  /** What node `i`'s calls have sent off is where its slice is, or waits for a node that does not list the model. */
  lemma StraightAims(cfg: Config, s: State, i: nat, g: nat, r: nat)
    requires Straight(cfg, s, i) && AllAimed(cfg, s, i) && g < |s.gets| && !Starved(s, g)
    requires var x := s.gets[g];
             && x.node == i && x.parent.None? && !x.faild
             && r < |x.route| && r < |x.reqs| && Asks(cfg, x.name, x.reqs[r])
    ensures var x := s.gets[g];
            || HasSlice(cfg, x.name, x.route[r], x.reqs[r].partition)
            || (Active(x) && Undelivered(x, x.route[r]) && !Lists(s, i, x.route[r], x.name))
  {
    var x := s.gets[g];
    assert Aimed(cfg, x);
    assert !CallMisrouted(cfg, s, g, r, x.route[r]);
  }

  // ----- a request waits for a node that does not list its model

  /** Task `j` has not been handed out, or is on the wire. */
  predicate Away(x: Get, j: nat)
  {
    j < |x.tasks| && (x.tasks[j].stage.Unsent? || x.tasks[j].stage.Sent?)
  }

  lemma RemoteAway(cfg: Config, s: State, g: nat, j: nat)
    requires Safe(cfg, s) && g < |s.gets| && Started(s.gets[g]) && Undelivered(s.gets[g], j) && !Local(s.gets[g], j)
    ensures Away(s.gets[g], j)
  {
    StageKnown(cfg, s, g, j);
  }

  /** The call's blocks and tasks come with it still undelivered. */
  lemma AllocateAway(cfg: Config, s: State, g: nat, newBlock: Option<seq<Byte>>, j: nat)
    requires Enabled(cfg, s, Allocate(g, newBlock)) && j < Width(cfg, s.gets[g])
    ensures Away(Apply(cfg, s, Allocate(g, newBlock)).gets[g], j)
  {
  }

  lemma PushAway(cfg: Config, s: State, g: nat, j: nat)
    requires Enabled(cfg, s, Push(g)) && Away(s.gets[g], j) && s.gets[g].tasks[j].ix != [] && !Local(s.gets[g], j)
    ensures Active(Apply(cfg, s, Push(g)).gets[g]) && Away(Apply(cfg, s, Push(g)).gets[g], j)
  {
  }

  lemma TaskAway(cfg: Config, s: State, step: Step, g: nat, j: nat)
    requires Enabled(cfg, s, step) && MovesTask(step) && !step.Deliver? && g < |s.gets| && Away(s.gets[g], j)
    requires g < |Apply(cfg, s, step).gets| && !Apply(cfg, s, step).gets[g].faild && Active(s.gets[g])
    ensures Active(Apply(cfg, s, step).gets[g]) && Away(Apply(cfg, s, step).gets[g], j)
  {
    TaskStepMoves(cfg, s, step);
    if step.g == g && step.k == j {
      TaskMovesOn(cfg, s, step);
    }
  }

  /** A task that has not been delivered can only be lost. */
  lemma TaskMovesOn(cfg: Config, s: State, step: Step)
    requires Enabled(cfg, s, step) && MovesTask(step) && !step.Deliver? && Away(s.gets[step.g], step.k)
    ensures step.Lose?
  {
  }

  lemma EndedAway(cfg: Config, s: State, step: Step, g: nat, j: nat)
    requires Safe(cfg, s) && Enabled(cfg, s, step) && (step.Succeed? || step.GiveUp?)
    requires g < |s.gets| && Away(s.gets[g], j) && s.gets[g].tasks[j].ix != [] && !s.gets[g].faild
    requires Active(s.gets[g]) && g < |Apply(cfg, s, step).gets|
    ensures Active(Apply(cfg, s, step).gets[g]) && Away(Apply(cfg, s, step).gets[g], j)
  {
    if step.Succeed? {
      SucceedEnds(cfg, s, step.g);
      if step.g == g {
        FinishMeansAllDone(cfg, s.gets[g]);
      }
    } else {
      GiveUpEnds(cfg, s, step.g);
    }
    StillAway(s, Apply(cfg, s, step), step.g, g, j);
  }

  lemma StillAway(s: State, s': State, c: nat, g: nat, j: nat)
    requires Ends(s, s', c) && g < |s.gets| && g != c && Away(s.gets[g], j) && Active(s.gets[g])
    ensures Active(s'.gets[g]) && Away(s'.gets[g], j)
  {
    assert s'.gets[g].tasks[j] == s.gets[g].tasks[j];
  }

  lemma SwitchAway(cfg: Config, s: State, step: Step, g: nat, j: nat)
    requires Enabled(cfg, s, step) && Switches(step) && g < |s.gets| == |Apply(cfg, s, step).gets|
    requires Away(s.gets[g], j) && Active(s.gets[g])
    ensures Active(Apply(cfg, s, step).gets[g]) && Away(Apply(cfg, s, step).gets[g], j)
  {
  }

  lemma StartAway(cfg: Config, s: State, step: Step, g: nat, j: nat)
    requires Enabled(cfg, s, step) && MovesStart(step) && g < |s.gets| && g < |Apply(cfg, s, step).gets|
    requires Active(s.gets[g]) && Away(s.gets[g], j) && s.gets[g].tasks[j].ix != [] && !Local(s.gets[g], j)
    requires Started(s.gets[g])
    ensures Active(Apply(cfg, s, step).gets[g]) && Away(Apply(cfg, s, step).gets[g], j)
  {
    if step == Push(g) {
      PushAway(cfg, s, g, j);
    } else {
      StepMoves(cfg, s, step);
    }
  }

  lemma JoinAway(cfg: Config, s: State, step: Step, g: nat, j: nat)
    requires Enabled(cfg, s, step) && (step.Deliver? || step.Capture?) && g < |s.gets|
    requires Active(s.gets[g]) && Away(s.gets[g], j) && g < |Apply(cfg, s, step).gets|
    requires !Lists(s, s.gets[g].node, j, s.gets[g].name)
    ensures Active(Apply(cfg, s, step).gets[g]) && Away(Apply(cfg, s, step).gets[g], j)
  {
    if step.Deliver? {
      DeliverJoins(cfg, s, step.g, step.k);
    } else {
      CaptureStarts(cfg, s, step.node, step.reqs);
    }
  }

  /** While node `j` does not list the model, a call's task for it stays away unless it is lost. */
  lemma AwayStays(cfg: Config, s: State, step: Step, g: nat, j: nat)
    requires Safe(cfg, s) && Enabled(cfg, s, step) && g < |s.gets| && g < |Apply(cfg, s, step).gets|
    requires Active(s.gets[g]) && Away(s.gets[g], j) && s.gets[g].tasks[j].ix != [] && !Local(s.gets[g], j)
    requires !Lists(s, s.gets[g].node, j, s.gets[g].name) && !Apply(cfg, s, step).gets[g].faild
    ensures Active(Apply(cfg, s, step).gets[g]) && Away(Apply(cfg, s, step).gets[g], j)
  {
    if MovesStart(step) {
      StageKnown(cfg, s, g, j);
      StartAway(cfg, s, step, g, j);
    } else if MovesTask(step) && !step.Deliver? {
      TaskAway(cfg, s, step, g, j);
    } else if step.Deliver? || step.Capture? {
      JoinAway(cfg, s, step, g, j);
    } else if Switches(step) {
      StepContinues(cfg, s, step);
      SwitchAway(cfg, s, step, g, j);
    } else {
      CallContinues(cfg, s, step, g);
      EndedAway(cfg, s, step, g, j);
    }
  }

  lemma StepAimed(cfg: Config, s: State, step: Step, i: nat)
    requires Sound(cfg, s) && Straight(cfg, s, i) && AllAimed(cfg, s, i) && Enabled(cfg, s, step)
    ensures AllAimed(cfg, Apply(cfg, s, step), i)
  {
    var s' := Apply(cfg, s, step);
    StepContinues(cfg, s, step);
    forall g | 0 <= g < |s'.gets| && s'.gets[g].node == i && s'.gets[g].parent.None? && !s'.gets[g].faild
      ensures Aimed(cfg, s'.gets[g])
    {
      if g < |s.gets| && !s'.gets[g].phase.Routing? {
        OldAimed(cfg, s, step, i, g);
      } else if g == |s.gets| {
        NewRouting(cfg, s, step);
      }
    }
  }

  lemma NewRouting(cfg: Config, s: State, step: Step)
    requires Enabled(cfg, s, step) && |Apply(cfg, s, step).gets| > |s.gets|
    ensures Apply(cfg, s, step).gets[|s.gets|].phase.Routing?
  {
    StepContinues(cfg, s, step);
    if step.Deliver? {
      DeliverJoins(cfg, s, step.g, step.k);
    } else {
      CaptureStarts(cfg, s, step.node, step.reqs);
    }
  }

  lemma OldAimed(cfg: Config, s: State, step: Step, i: nat, g: nat)
    requires Sound(cfg, s) && Straight(cfg, s, i) && AllAimed(cfg, s, i) && Enabled(cfg, s, step) && g < |s.gets|
    requires g < |Apply(cfg, s, step).gets|
    requires var y := Apply(cfg, s, step).gets[g]; y.node == i && y.parent.None? && !y.faild && !y.phase.Routing?
    ensures Aimed(cfg, Apply(cfg, s, step).gets[g])
  {
    CallContinues(cfg, s, step, g);
    if Starved(s, g) {
      StarvedNext(cfg, s, step, g);
    } else {
      var y := Apply(cfg, s, step).gets[g];
      SameRoute(cfg, s, step, g);
      forall r: nat | r < |y.route| && r < |y.reqs| && Asks(cfg, y.name, y.reqs[r])
        ensures || HasSlice(cfg, y.name, y.route[r], y.reqs[r].partition)
                || (Active(y) && Undelivered(y, y.route[r]))
      {
        StraightAims(cfg, s, i, g, r);
        if !HasSlice(cfg, y.name, y.route[r], y.reqs[r].partition) {
          RequestAway(cfg, s, step, g, r);
        }
      }
    }
  }

  /** A request waiting for a node that does not list its model goes on waiting. */
  lemma RequestAway(cfg: Config, s: State, step: Step, g: nat, r: nat)
    requires Safe(cfg, s) && Enabled(cfg, s, step) && g < |s.gets| && g < |Apply(cfg, s, step).gets|
    requires !Apply(cfg, s, step).gets[g].faild && !Apply(cfg, s, step).gets[g].phase.Routing?
    requires var x := s.gets[g];
             && Active(x) && x.parent.None? && r < |x.route| && r < |x.reqs|
             && Undelivered(x, x.route[r]) && !Lists(s, x.node, x.route[r], x.name)
    ensures var y := Apply(cfg, s, step).gets[g]; Active(y) && Undelivered(y, s.gets[g].route[r])
  {
    var x := s.gets[g];
    var j := x.route[r];
    assert GetOk(cfg, x);
    if x.phase.Routing? {
      if step.Allocate? && step.g == g {
        AllocateMoves(cfg, s, g, step.newBlock);
        AllocateAway(cfg, s, g, step.newBlock, j);
      } else {
        RoutingKept(cfg, s, step, g);
      }
    } else {
      RemoteAway(cfg, s, g, j);
      StartedIndices(cfg, x, j);
      IndicesMember(x.route, j, r);
      AwayStays(cfg, s, step, g, j);
    }
  }

  lemma SameRoute(cfg: Config, s: State, step: Step, g: nat)
    requires Enabled(cfg, s, step) && g < |s.gets| && g < |Apply(cfg, s, step).gets|
    requires !Apply(cfg, s, step).gets[g].phase.Routing?
    ensures Apply(cfg, s, step).gets[g].route == s.gets[g].route
  {
    StepContinues(cfg, s, step);
    if step == RouteOne(g) {
      RouteMoves(cfg, s, g);
    }
  }

  /** In a straight run no request of node `i`'s clients has ever been handed to a node without its slice. */
  lemma {:induction false} RunsAreAimed(cfg: Config, steps: seq<Step>, i: nat)
    requires Legal(cfg, steps) && StraightRun(cfg, steps, i)
    ensures AllAimed(cfg, Final(cfg, steps), i)
  {
    if steps != [] {
      var n := |steps| - 1;
      RunsAreAimed(cfg, steps[..n], i);
      RunsAreSound(cfg, steps[..n]);
      StepAimed(cfg, Final(cfg, steps[..n]), steps[n], i);
    }
  }

  /** Calls alone lead no request astray. */
  lemma {:induction false} QuietStaysStraight(cfg: Config, steps: seq<Step>, more: seq<Step>, i: nat)
    requires Legal(cfg, steps) && StraightRun(cfg, steps, i) && Straight(cfg, Final(cfg, steps), i)
    requires Legal(cfg, steps + more) && forall k :: 0 <= k < |more| ==> Quiet(more[k])
    ensures StraightRun(cfg, steps + more, i) && Straight(cfg, Final(cfg, steps + more), i)
  {
    if more == [] {
      assert steps + more == steps;
    } else {
      LastOfMore(cfg, steps, more);
      QuietStaysStraight(cfg, steps, more[..|more| - 1], i);
      StraightLonger(cfg, steps + more[..|more| - 1], more[|more| - 1], i);
    }
  }

  lemma StraightLonger(cfg: Config, steps: seq<Step>, step: Step, i: nat)
    requires Legal(cfg, steps) && Enabled(cfg, Final(cfg, steps), step) && Quiet(step)
    requires StraightRun(cfg, steps, i) && Straight(cfg, Final(cfg, steps), i)
    ensures Legal(cfg, steps + [step]) && StraightRun(cfg, steps + [step], i)
    ensures Straight(cfg, Final(cfg, steps + [step]), i)
  {
    assert (steps + [step])[..|steps|] == steps;
    AddStep(cfg, steps, step);
    RunsAreSound(cfg, steps);
    StraightKept(cfg, Final(cfg, steps), step, i);
  }
}
