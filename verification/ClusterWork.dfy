/** The steps taken for calls are bounded by what clients ask for. */
module ClusterWork {
  import opened Bytes
  import opened Requests
  import opened Cluster
  import opened ClusterSafety
  import opened ClusterCalls
  import opened Sums

  function TaskWork(x: Get, k: nat): (n: nat)
    requires k < |x.tasks|
  {
    var n := |x.tasks[k].ix|;
    match x.tasks[k].stage
    case Unsent => if Local(x, k) then n + 3 else 3 * n + 11
    case Queued => n + 2
    case Running(d) => if d <= n then n - d + 1 else 1
    case Sent => 3 * n + 10
    case Serving(_) => n + 2
    case Replied(_, d) => if d <= n then n - d + 1 else 1
    case _ => 0
  }

  function TaskWorks(x: Get): (xs: seq<nat>)
  {
    seq(|x.tasks|, k requires 0 <= k < |x.tasks| => TaskWork(x, k))
  }

  /** What the tasks of a call that is still being routed can come to. */
  function TaskBudget(cfg: Config, x: Get): (n: nat)
  {
    if x.parent.Some? then |x.reqs| + 3 else 3 * |x.reqs| + 11 * cfg.nodes
  }

  function PhaseWork(cfg: Config, x: Get): (n: nat)
  {
    match x.phase
    case Routing =>
      (if |x.route| <= |x.reqs| then |x.reqs| - |x.route| else 0) + TaskBudget(cfg, x) + (if x.making then 3 else 4)
    case Pushing(_) => 2
    case Waiting => 1
    case Returned(_, _) => 0
  }

  function CallWork(cfg: Config, x: Get): (n: nat)
  {
    PhaseWork(cfg, x) + Sum(TaskWorks(x))
  }

  function Works(cfg: Config, gets: seq<Get>): (xs: seq<nat>)
  {
    seq(|gets|, g requires 0 <= g < |gets| => CallWork(cfg, gets[g]))
  }

  /** A bound on the steps all calls of a state can still take. */
  function Work(cfg: Config, s: State): (n: nat)
  {
    Sum(Works(cfg, s.gets))
  }

  /** The most steps one client's call can cause, on all nodes together. */
  function CallBudget(cfg: Config, reqs: seq<SliceRequest>): (n: nat)
  {
    4 * |reqs| + 11 * cfg.nodes + 4
  }

  // ----- every step taken for a call uses some of it up

  /** Nothing but task `k` and the flags differs. */
  ghost predicate OneTask(x: Get, y: Get, k: nat)
  {
    && k < |x.tasks| && y.node == x.node && y.parent == x.parent && y.phase == x.phase
    && y.route == x.route && y.reqs == x.reqs && y.making == x.making
    && |y.tasks| == |x.tasks| && forall j :: 0 <= j < |x.tasks| && j != k ==> y.tasks[j] == x.tasks[j]
  }

  lemma StageWork(cfg: Config, x: Get, y: Get, k: nat)
    requires OneTask(x, y, k)
    ensures CallWork(cfg, y) + TaskWork(x, k) == CallWork(cfg, x) + TaskWork(y, k)
  {
    SumUpdate(TaskWorks(x), TaskWorks(y), k);
  }

  lemma ReplaceWork(cfg: Config, gets: seq<Get>, gets': seq<Get>, g: nat)
    requires g < |gets| == |gets'| && forall h :: 0 <= h < |gets| && h != g ==> gets'[h] == gets[h]
    ensures Sum(Works(cfg, gets')) + CallWork(cfg, gets[g]) == Sum(Works(cfg, gets)) + CallWork(cfg, gets'[g])
  {
    SumUpdate(Works(cfg, gets), Works(cfg, gets'), g);
  }

  lemma AppendWork(cfg: Config, gets: seq<Get>, x: Get)
    ensures Sum(Works(cfg, gets + [x])) == Sum(Works(cfg, gets)) + CallWork(cfg, x)
  {
    var n := |gets|;
    assert Works(cfg, gets + [x])[..n] == Works(cfg, gets);
    assert Works(cfg, gets + [x])[n] == CallWork(cfg, x);
  }

  lemma NewWork(cfg: Config, node: nat, name: Name, h: nat, parent: Option<(nat, nat)>, reqs: seq<SliceRequest>)
    ensures CallWork(cfg, NewGet(node, name, h, parent, reqs)) ==
            (if parent.Some? then 2 * |reqs| + 7 else CallBudget(cfg, reqs))
  {
    assert TaskWorks(NewGet(node, name, h, parent, reqs)) == [];
  }

  /** The first `w` buckets' unsent tasks. */
  lemma {:induction false} UnsentWork(x: Get, w: nat)
    requires w <= |x.tasks| && forall k :: 0 <= k < |x.tasks| ==> x.tasks[k] == Task(Indices(x.route, k), Unsent)
    ensures Sum(TaskWorks(x)[..w]) <= 3 * Routed(x.route, w) + 11 * w
    ensures x.parent.Some? ==> Sum(TaskWorks(x)[..w]) == Routed(x.route, w) + 3 * w
  {
    if w > 0 {
      UnsentWork(x, w - 1);
      assert TaskWorks(x)[..w][..w - 1] == TaskWorks(x)[..w - 1];
    }
  }

  lemma AllocateWork(cfg: Config, s: State, g: nat, newBlock: Option<seq<Byte>>)
    requires Safe(cfg, s) && Enabled(cfg, s, Allocate(g, newBlock))
    ensures Work(cfg, Apply(cfg, s, Allocate(g, newBlock))) < Work(cfg, s)
  {
    var s' := Apply(cfg, s, Allocate(g, newBlock));
    var x, y := s.gets[g], s'.gets[g];
    assert GetOk(cfg, x);
    assert TaskWorks(x) == [];
    UnsentWork(y, |y.tasks|);
    assert TaskWorks(y)[..|y.tasks|] == TaskWorks(y);
    RoutedAll(y.route, |y.tasks|);
    ReplaceWork(cfg, s.gets, s'.gets, g);
  }

  lemma PushedWork(cfg: Config, x: Get)
    requires x.phase.Pushing? && x.phase.next < |x.tasks| && x.tasks[x.phase.next].stage.Unsent?
    ensures CallWork(cfg, Pushed(x)) < CallWork(cfg, x)
  {
    SumUpdate(TaskWorks(x), TaskWorks(Pushed(x)), x.phase.next);
  }

  lemma PushWork(cfg: Config, s: State, g: nat)
    requires Safe(cfg, s) && Enabled(cfg, s, Push(g))
    ensures Work(cfg, Apply(cfg, s, Push(g))) < Work(cfg, s)
  {
    var x := s.gets[g];
    StageKnown(cfg, s, g, x.phase.next);
    PushedWork(cfg, x);
    ReplaceWork(cfg, s.gets, Apply(cfg, s, Push(g)).gets, g);
  }

  lemma DeliverWork(cfg: Config, s: State, g: nat, k: nat)
    requires Enabled(cfg, s, Deliver(g, k))
    ensures Work(cfg, Apply(cfg, s, Deliver(g, k))) < Work(cfg, s)
  {
    var x := s.gets[g];
    DeliverJoins(cfg, s, g, k);
    DeliverCall(cfg, s, g, k);
    NewWork(cfg, k, x.name, s.nodes[k].table[x.name], Some((g, k)), ToWire(Entries(x.reqs, x.tasks[k].ix)));
    JoinedWork(cfg, s, Apply(cfg, s, Deliver(g, k)), g, k);
  }

  /** The work of a task on the wire covers the call that joins to serve it. */
  lemma JoinedWork(cfg: Config, s: State, s': State, g: nat, k: nat)
    requires Joined(s, s', g, k) && s.gets[g].tasks[k].stage.Sent?
    requires CallWork(cfg, s'.gets[|s.gets|]) == 2 * |s.gets[g].tasks[k].ix| + 7
    ensures Work(cfg, s') < Work(cfg, s)
  {
    var with := s.gets[g := s'.gets[g]];
    assert s'.gets == with + [s'.gets[|s.gets|]];
    SentWork(cfg, s.gets[g], k, |s.gets|);
    ReplaceWork(cfg, s.gets, with, g);
    AppendWork(cfg, with, s'.gets[|s.gets|]);
  }

  lemma SentWork(cfg: Config, x: Get, k: nat, c: nat)
    requires k < |x.tasks| && x.tasks[k].stage.Sent?
    ensures CallWork(cfg, SetStage(x, k, Serving(c))) + 2 * |x.tasks[k].ix| + 8 == CallWork(cfg, x)
  {
    StageWork(cfg, x, SetStage(x, k, Serving(c)), k);
  }

  lemma ReplyWork(cfg: Config, s: State, c: nat, data: seq<seq<Byte>>)
    requires c < |s.gets|
    ensures Work(cfg, Reply(s, c, data)) <= Work(cfg, s)
  {
    if s.gets[c].parent.Some? {
      var (g, k) := s.gets[c].parent.value;
      if HasTask(s, g, k) && s.gets[g].tasks[k].stage == Serving(c) {
        StageWork(cfg, s.gets[g], SetStage(s.gets[g], k, Replied(data, 0)), k);
        ReplaceWork(cfg, s.gets, Reply(s, c, data).gets, g);
      }
    }
  }

  lemma ReturnedWork(cfg: Config, x: Get, status: int, data: seq<seq<Byte>>)
    requires x.phase.Waiting?
    ensures CallWork(cfg, x.(phase := Returned(status, data))) < CallWork(cfg, x)
  {
    assert TaskWorks(x.(phase := Returned(status, data))) == TaskWorks(x);
  }

  lemma SucceedWork(cfg: Config, s: State, g: nat)
    requires Enabled(cfg, s, Succeed(g))
    ensures Work(cfg, Apply(cfg, s, Succeed(g))) < Work(cfg, s)
  {
    var s1 := Answered(s, g);
    ReturnedWork(cfg, s.gets[g], 0, s1.gets[g].phase.data);
    ReplaceWork(cfg, s.gets, s1.gets, g);
    ReplyWork(cfg, s1, g, s1.gets[g].phase.data);
  }

  lemma GiveUpWork(cfg: Config, s: State, g: nat)
    requires Enabled(cfg, s, GiveUp(g))
    ensures Work(cfg, Apply(cfg, s, GiveUp(g))) < Work(cfg, s)
  {
    var s1 := SetGet(s, g, s.gets[g].(phase := Returned(-1, [])));
    ReturnedWork(cfg, s.gets[g], -1, []);
    ReplaceWork(cfg, s.gets, s1.gets, g);
    ReplyWork(cfg, s1, g, []);
  }

  /** The steps that change the stage of one task of one call and start no other call. */
  lemma TaskStepWork(cfg: Config, s: State, step: Step)
    requires Enabled(cfg, s, step) && MovesTask(step) && !step.Deliver?
    requires StageOk(s.gets[step.g], step.k)
    ensures Work(cfg, Apply(cfg, s, step)) < Work(cfg, s)
  {
    var g, k, s' := step.g, step.k, Apply(cfg, s, step);
    TaskStepUses(cfg, s, step);
    StageWork(cfg, s.gets[g], s'.gets[g], k);
    ReplaceWork(cfg, s.gets, s'.gets, g);
  }

  lemma TaskStepUses(cfg: Config, s: State, step: Step)
    requires Enabled(cfg, s, step) && MovesTask(step) && !step.Deliver?
    requires StageOk(s.gets[step.g], step.k)
    ensures var g, k, s' := step.g, step.k, Apply(cfg, s, step);
            && |s'.gets| == |s.gets| && (forall h :: 0 <= h < |s.gets| && h != g ==> s'.gets[h] == s.gets[h])
            && OneTask(s.gets[g], s'.gets[g], k)
            && TaskWork(s'.gets[g], k) < TaskWork(s.gets[g], k)
  {
    TaskStepMoves(cfg, s, step);
    if step.ReadOne? || step.CopyBack? {
      CopyUses(cfg, s, step);
    } else {
      StageUses(cfg, s, step);
    }
  }

  lemma CopyUses(cfg: Config, s: State, step: Step)
    requires Enabled(cfg, s, step) && (step.ReadOne? || step.CopyBack?)
    ensures var g, k, s' := step.g, step.k, Apply(cfg, s, step);
            |s'.gets| == |s.gets| && k < |s'.gets[g].tasks| && TaskWork(s'.gets[g], k) < TaskWork(s.gets[g], k)
  {
  }

  lemma StageUses(cfg: Config, s: State, step: Step)
    requires Enabled(cfg, s, step) && (step.Pop? || step.Complete? || step.Lose? || step.Reject?)
    ensures var g, k, s' := step.g, step.k, Apply(cfg, s, step);
            |s'.gets| == |s.gets| && k < |s'.gets[g].tasks| && TaskWork(s'.gets[g], k) < TaskWork(s.gets[g], k)
  {
  }

  lemma RouteWork(cfg: Config, s: State, g: nat)
    requires Enabled(cfg, s, RouteOne(g))
    ensures Work(cfg, Apply(cfg, s, RouteOne(g))) < Work(cfg, s)
  {
    var s' := Apply(cfg, s, RouteOne(g));
    assert TaskWorks(s'.gets[g]) == TaskWorks(s.gets[g]);
    ReplaceWork(cfg, s.gets, s'.gets, g);
  }

  lemma UnlockWork(cfg: Config, s: State, g: nat)
    requires Enabled(cfg, s, Unlock(g))
    ensures Work(cfg, Apply(cfg, s, Unlock(g))) < Work(cfg, s)
  {
    var s' := Apply(cfg, s, Unlock(g));
    assert TaskWorks(s'.gets[g]) == TaskWorks(s.gets[g]);
    ReplaceWork(cfg, s.gets, s'.gets, g);
  }

  lemma DestroyWork(cfg: Config, s: State, h: nat)
    requires Enabled(cfg, s, Destroy(h))
    ensures Work(cfg, Apply(cfg, s, Destroy(h))) <= Work(cfg, s)
  {
    var s' := Apply(cfg, s, Destroy(h));
    forall g | 0 <= g < |s.gets|
      ensures Works(cfg, s'.gets)[g] <= Works(cfg, s.gets)[g]
    {
      SumLess(TaskWorks(s.gets[g]), TaskWorks(s'.gets[g]));
    }
    SumLess(Works(cfg, s.gets), Works(cfg, s'.gets));
  }

  lemma ActWork(cfg: Config, s: State, step: Step)
    requires Safe(cfg, s) && Enabled(cfg, s, step) && Actor(step).Some?
    ensures Work(cfg, Apply(cfg, s, step)) < Work(cfg, s)
  {
    if step.RouteOne? {
      RouteWork(cfg, s, step.g);
    } else if step.Unlock? {
      UnlockWork(cfg, s, step.g);
    } else if step.Allocate? {
      AllocateWork(cfg, s, step.g, step.newBlock);
    } else if step.Push? {
      PushWork(cfg, s, step.g);
    } else if step.Deliver? {
      DeliverWork(cfg, s, step.g, step.k);
    } else if step.Succeed? {
      SucceedWork(cfg, s, step.g);
    } else if step.GiveUp? {
      GiveUpWork(cfg, s, step.g);
    } else {
      StageKnown(cfg, s, step.g, step.k);
      TaskStepWork(cfg, s, step);
    }
  }

  lemma SwitchWork(cfg: Config, s: State, step: Step)
    requires Enabled(cfg, s, step) && Switches(step)
    ensures Work(cfg, Apply(cfg, s, step)) <= Work(cfg, s)
  {
    if step.Destroy? {
      DestroyWork(cfg, s, step.h);
    }
  }

  /** A step for a call uses work up; a client's new call adds its budget; nothing else adds any. */
  lemma StepWork(cfg: Config, s: State, step: Step)
    requires Safe(cfg, s) && Enabled(cfg, s, step)
    ensures var w, w' := Work(cfg, s), Work(cfg, Apply(cfg, s, step));
            if Actor(step).Some? then w' < w
            else if step.Capture? then w' == w + CallBudget(cfg, step.reqs)
            else w' <= w
  {
    if Actor(step).Some? {
      ActWork(cfg, s, step);
    } else if step.Capture? {
      var h := s.nodes[step.node].current.value;
      NewWork(cfg, step.node, s.handlers[h].name, h, None, step.reqs);
      AppendWork(cfg, s.gets, NewGet(step.node, s.handlers[h].name, h, None, step.reqs));
    } else {
      SwitchWork(cfg, s, step);
    }
  }

  /** How many steps of a run were taken for calls. */
  function Acts(steps: seq<Step>): (n: nat)
  {
    if steps == [] then 0
    else Acts(steps[..|steps| - 1]) + (if Actor(steps[|steps| - 1]).Some? then 1 else 0)
  }

  /** The budgets of the calls clients made in a run. */
  function Budgets(cfg: Config, steps: seq<Step>): (n: nat)
  {
    if steps == [] then 0
    else
      var last := steps[|steps| - 1];
      Budgets(cfg, steps[..|steps| - 1]) + (if last.Capture? then CallBudget(cfg, last.reqs) else 0)
  }

  /**
   Over every schedule, all nodes together take at most 4 * requests + 11 * nodes + 4 steps for each
   call a client makes: nothing is retried for ever and no calls go round in circles.
   */
  lemma {:induction false} RunsDoBoundedWork(cfg: Config, steps: seq<Step>)
    requires Legal(cfg, steps)
    ensures Acts(steps) + Work(cfg, Final(cfg, steps)) <= Budgets(cfg, steps)
  {
    if steps == [] {
      assert Works(cfg, Initial(cfg).gets) == [];
    } else {
      var n := |steps| - 1;
      RunsDoBoundedWork(cfg, steps[..n]);
      RunsAreSafe(cfg, steps[..n]);
      StepWork(cfg, Final(cfg, steps[..n]), steps[n]);
    }
  }
}
