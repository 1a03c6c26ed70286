/**
 What calls can rely on, whatever the schedule: no step takes back what a call asked for or returned,
 and what a call waits for is still under way.
 */
module ClusterCalls {
  import opened Bytes
  import opened Requests
  import opened Cluster
  import opened ClusterSafety

  /** The call a step works for. */
  function Actor(step: Step): (g: Option<nat>)
  {
    match step
    case RouteOne(g) => Some(g)
    case Unlock(g) => Some(g)
    case Allocate(g, _) => Some(g)
    case Push(g) => Some(g)
    case Pop(g, _) => Some(g)
    case ReadOne(g, _, _) => Some(g)
    case Complete(g, _) => Some(g)
    case Deliver(g, _) => Some(g)
    case Lose(g, _) => Some(g)
    case Reject(g, _) => Some(g)
    case CopyBack(g, _) => Some(g)
    case Succeed(g) => Some(g)
    case GiveUp(g) => Some(g)
    case _ => None
  }

  // ----- the steps that move one call on

  /** The steps that change one call and start or end none. */
  predicate MovesOne(step: Step)
  {
    MovesStart(step) || (MovesTask(step) && !step.Deliver?)
  }

  /** Only call `g` and the memory change. */
  ghost predicate OneCall(s: State, s': State, g: nat)
  {
    && g < |s.gets| && s'.nodes == s.nodes && s'.handlers == s.handlers
    && |s'.gets| == |s.gets| && s'.gets == s.gets[g := s'.gets[g]]
  }

  /** A stage that a call's task comes to by such a step waits for nothing, or keeps the reply the task had. */
  ghost predicate StageMoves(x: Get, y: Get, k: nat)
    requires k < |y.tasks|
  {
    && (y.tasks[k].stage.Serving? ==> k < |x.tasks| && y.tasks[k] == x.tasks[k])
    && (y.tasks[k].stage.Replied? ==>
          && k < |x.tasks| && x.tasks[k].stage.Replied?
          && y.tasks[k].ix == x.tasks[k].ix && y.tasks[k].stage.data == x.tasks[k].stage.data)
  }

  ghost predicate MovesOn(x: Get, y: Get)
  {
    && Continues(x, y) && (Active(x) ==> Active(y))
    && forall k :: 0 <= k < |y.tasks| ==> StageMoves(x, y, k)
  }

  /** One task of a started call comes to a new stage, and is counted or marked failed. */
  ghost predicate TaskMoves(x: Get, y: Get, k: nat)
  {
    && k < |x.tasks| == |y.tasks| && y.tasks == x.tasks[k := y.tasks[k]] && y.tasks[k].ix == x.tasks[k].ix
    && y == x.(tasks := y.tasks, finishNum := y.finishNum, finish := y.finish, faild := y.faild)
    && !y.tasks[k].stage.Serving? && !y.tasks[k].stage.Unsent? && !y.tasks[k].stage.Queued? && !y.tasks[k].stage.Sent?
    && StageMoves(x, y, k)
  }

  lemma TaskMovesCall(x: Get, y: Get, k: nat)
    requires TaskMoves(x, y, k) && (x.faild ==> y.faild)
    ensures MovesOn(x, y) && y.route == x.route && Holds(y) == Holds(x) && y.block == x.block
  {
  }

  lemma PopMoves(cfg: Config, s: State, g: nat, k: nat)
    requires Enabled(cfg, s, Pop(g, k))
    ensures var s' := Apply(cfg, s, Pop(g, k));
            && OneCall(s, s', g) && TaskMoves(s.gets[g], s'.gets[g], k) && SamePools(s, s')
            && s'.gets[g].faild == s.gets[g].faild
  {
  }

  lemma ReadMoves(cfg: Config, s: State, g: nat, k: nat, bytes: seq<Byte>)
    requires Enabled(cfg, s, ReadOne(g, k, bytes))
    ensures var s' := Apply(cfg, s, ReadOne(g, k, bytes));
            && OneCall(s, s', g) && TaskMoves(s.gets[g], s'.gets[g], k) && SamePools(s, s')
            && s'.gets[g].faild == s.gets[g].faild
  {
  }

  lemma CompleteMoves(cfg: Config, s: State, g: nat, k: nat)
    requires Enabled(cfg, s, Complete(g, k))
    ensures var s' := Apply(cfg, s, Complete(g, k));
            && OneCall(s, s', g) && TaskMoves(s.gets[g], s'.gets[g], k) && SamePools(s, s')
            && s'.gets[g].faild == s.gets[g].faild
  {
  }

  lemma LoseMoves(cfg: Config, s: State, g: nat, k: nat)
    requires Enabled(cfg, s, Lose(g, k))
    ensures var s' := Apply(cfg, s, Lose(g, k));
            OneCall(s, s', g) && TaskMoves(s.gets[g], s'.gets[g], k) && SamePools(s, s') && s'.gets[g].faild
  {
  }

  lemma RejectMoves(cfg: Config, s: State, g: nat, k: nat)
    requires Enabled(cfg, s, Reject(g, k))
    ensures var s' := Apply(cfg, s, Reject(g, k));
            OneCall(s, s', g) && TaskMoves(s.gets[g], s'.gets[g], k) && SamePools(s, s') && s'.gets[g].faild
  {
  }

  lemma CopyBackMoves(cfg: Config, s: State, g: nat, k: nat)
    requires Enabled(cfg, s, CopyBack(g, k))
    ensures var s' := Apply(cfg, s, CopyBack(g, k));
            && OneCall(s, s', g) && TaskMoves(s.gets[g], s'.gets[g], k) && SamePools(s, s')
            && s'.gets[g].faild == s.gets[g].faild
  {
  }

  ghost predicate SamePools(s: State, s': State)
  {
    s'.free == s.free && s'.made == s.made
  }

  /** A task step moves one task of its call. */
  lemma TaskStepMoves(cfg: Config, s: State, step: Step)
    requires Enabled(cfg, s, step) && MovesTask(step) && !step.Deliver?
    ensures var s' := Apply(cfg, s, step);
            && OneCall(s, s', step.g) && TaskMoves(s.gets[step.g], s'.gets[step.g], step.k) && SamePools(s, s')
            && (if step.Lose? || step.Reject? then s'.gets[step.g].faild
                else s'.gets[step.g].faild == s.gets[step.g].faild)
  {
    if step.Pop? {
      PopMoves(cfg, s, step.g, step.k);
    } else if step.ReadOne? {
      ReadMoves(cfg, s, step.g, step.k, step.bytes);
    } else if step.Complete? {
      CompleteMoves(cfg, s, step.g, step.k);
    } else if step.Lose? {
      LoseMoves(cfg, s, step.g, step.k);
    } else if step.Reject? {
      RejectMoves(cfg, s, step.g, step.k);
    } else {
      CopyBackMoves(cfg, s, step.g, step.k);
    }
  }

  lemma RouteMoves(cfg: Config, s: State, g: nat)
    requires Enabled(cfg, s, RouteOne(g))
    ensures var s' := Apply(cfg, s, RouteOne(g));
            && OneCall(s, s', g) && MovesOn(s.gets[g], s'.gets[g]) && SamePools(s, s')
            && s'.gets[g] == s.gets[g].(route := s'.gets[g].route)
  {
  }

  lemma UnlockMoves(cfg: Config, s: State, g: nat)
    requires Enabled(cfg, s, Unlock(g))
    ensures var s' := Apply(cfg, s, Unlock(g));
            && OneCall(s, s', g) && MovesOn(s.gets[g], s'.gets[g]) && SamePools(s, s')
            && s'.gets[g] == s.gets[g].(making := true)
  {
  }

  lemma AllocateMoves(cfg: Config, s: State, g: nat, newBlock: Option<seq<Byte>>)
    requires Enabled(cfg, s, Allocate(g, newBlock))
    ensures var s', p := Apply(cfg, s, Allocate(g, newBlock)), PoolOf(s.gets[g]);
            && OneCall(s, s', g) && MovesOn(s.gets[g], s'.gets[g])
            && s'.gets[g] == s.gets[g].(tasks := s'.gets[g].tasks, phase := Pushing(0), block := s'.gets[g].block)
            && (forall k :: 0 <= k < |s'.gets[g].tasks| ==> s'.gets[g].tasks[k].stage.Unsent?)
            && (if newBlock.Some? then s'.free == s.free && s'.made == s.made[p := s.made[p] + 1]
                else s'.made == s.made && s'.free == s.free[p := s.free[p][..|s.free[p]| - 1]])
  {
  }

  lemma PushMoves(cfg: Config, s: State, g: nat)
    requires Enabled(cfg, s, Push(g))
    ensures var s', k := Apply(cfg, s, Push(g)), s.gets[g].phase.next;
            && OneCall(s, s', g) && MovesOn(s.gets[g], s'.gets[g]) && SamePools(s, s')
            && var x, y := s.gets[g], s'.gets[g];
               && y == x.(tasks := x.tasks[k := y.tasks[k]], phase := y.phase)
               && (y.phase.Pushing? || y.phase.Waiting?)
  {
  }

  /** Any of them moves its call on, and nothing else but the memory. */
  lemma StepMoves(cfg: Config, s: State, step: Step)
    requires Enabled(cfg, s, step) && MovesOne(step)
    ensures var g, s' := Actor(step).value, Apply(cfg, s, step);
            && OneCall(s, s', g) && MovesOn(s.gets[g], s'.gets[g])
            && (!step.RouteOne? ==> s'.gets[g].route == s.gets[g].route)
            && (!step.Lose? && !step.Reject? ==> s'.gets[g].faild == s.gets[g].faild)
            && (!step.Allocate? ==>
                  SamePools(s, s') && Holds(s'.gets[g]) == Holds(s.gets[g]) && s'.gets[g].block == s.gets[g].block)
  {
    if step.RouteOne? {
      RouteMoves(cfg, s, step.g);
    } else if step.Unlock? {
      UnlockMoves(cfg, s, step.g);
    } else if step.Allocate? {
      AllocateMoves(cfg, s, step.g, step.newBlock);
    } else if step.Push? {
      PushMoves(cfg, s, step.g);
    } else {
      TaskStepMoves(cfg, s, step);
      TaskMovesCall(s.gets[step.g], Apply(cfg, s, step).gets[step.g], step.k);
    }
  }

  // ----- the steps that end a call

  /** What a call's end changes: its own phase, its block's place, and the task that waits for it. */
  ghost predicate Ends(s: State, s': State, g: nat)
  {
    && g < |s.gets| == |s'.gets| && s'.nodes == s.nodes && s'.handlers == s.handlers && s'.blocks == s.blocks
    && s.gets[g].phase.Waiting? && s'.gets[g].phase.Returned?
    && (forall h :: 0 <= h < |s.gets| ==>
          && s'.gets[h] == s.gets[h].(phase := s'.gets[h].phase, tasks := s'.gets[h].tasks)
          && (h != g ==> s'.gets[h].phase == s.gets[h].phase)
          && |s'.gets[h].tasks| == |s.gets[h].tasks|)
    && (forall h, k :: 0 <= h < |s.gets| && 0 <= k < |s.gets[h].tasks| ==>
          s'.gets[h].tasks[k] == s.gets[h].tasks[k] ||
          (s.gets[h].tasks[k].stage == Serving(g) &&
           s'.gets[h].tasks[k] == s.gets[h].tasks[k].(stage := Replied(s'.gets[g].phase.data, 0))))
  }

  lemma ReplyEnds(s: State, s1: State, g: nat, data: seq<seq<Byte>>)
    requires g < |s.gets| && s.gets[g].phase.Waiting?
    requires |s1.gets| == |s.gets| && s1.gets[g].phase.Returned?
    requires s1.gets == s.gets[g := s.gets[g].(phase := Returned(s1.gets[g].phase.status, data))]
    requires s1.nodes == s.nodes && s1.handlers == s.handlers && s1.blocks == s.blocks
    ensures Ends(s, Reply(s1, g, data), g) && SamePools(s1, Reply(s1, g, data))
  {
  }

  lemma SucceedEnds(cfg: Config, s: State, g: nat)
    requires Enabled(cfg, s, Succeed(g))
    ensures var s', x := Apply(cfg, s, Succeed(g)), s.gets[g];
            && Ends(s, s', g) && s'.gets[g].phase == Returned(0, Gathered(s.blocks[x.block], x.reqs))
            && s'.made == s.made && s'.free == s.free[PoolOf(x) := s.free[PoolOf(x)] + [x.block]]
  {
    ReplyEnds(s, Answered(s, g), g, Answered(s, g).gets[g].phase.data);
  }

  lemma GiveUpEnds(cfg: Config, s: State, g: nat)
    requires Enabled(cfg, s, GiveUp(g))
    ensures var s' := Apply(cfg, s, GiveUp(g));
            Ends(s, s', g) && s'.gets[g].phase == Returned(-1, []) && SamePools(s, s')
  {
    ReplyEnds(s, SetGet(s, g, s.gets[g].(phase := Returned(-1, []))), g, []);
  }

  // ----- the steps that start a call

  lemma CaptureStarts(cfg: Config, s: State, node: nat, reqs: seq<SliceRequest>)
    requires Enabled(cfg, s, Capture(node, reqs))
    ensures var h := s.nodes[node].current.value;
            Apply(cfg, s, Capture(node, reqs)) ==
            s.(gets := s.gets + [NewGet(node, s.handlers[h].name, h, None, reqs)])
  {
  }

  // ----- what no step changes

  /** The same call, no less started or failed, and what it returned is unchanged. */
  ghost predicate Continues(x: Get, y: Get)
  {
    && x.name == y.name && x.reqs == y.reqs && x.node == y.node && x.parent == y.parent && x.handler == y.handler
    && (x.phase.Returned? ==> y.phase == x.phase && y.block == x.block)
    && (Started(x) ==> Started(y))
    && (x.faild ==> y.faild)
  }

  ghost predicate CallsContinue(s: State, s': State)
  {
    |s.gets| <= |s'.gets| && forall g :: 0 <= g < |s.gets| ==> Continues(s.gets[g], s'.gets[g])
  }

  ghost predicate SameRoutes(s: State, s': State)
  {
    |s.gets| <= |s'.gets| && forall g :: 0 <= g < |s.gets| ==> s'.gets[g].route == s.gets[g].route
  }

  /** Installing, unloading and destroying change no call but for leftover tasks of finished ones. */
  lemma SwitchContinues(cfg: Config, s: State, step: Step)
    requires Enabled(cfg, s, step) && Switches(step)
    ensures var s' := Apply(cfg, s, step);
            && CallsContinue(s, s') && SameRoutes(s, s') && |s'.gets| == |s.gets|
            && s'.free == s.free && s'.made == s.made && s'.blocks == s.blocks
            && forall g :: 0 <= g < |s.gets| ==> s'.gets[g] == s.gets[g].(tasks := s'.gets[g].tasks)
  {
    if step.Destroy? {
      DestroyContinues(cfg, s, step.h);
    }
    OnlyTasks(s, Apply(cfg, s, step));
  }

  lemma DestroyContinues(cfg: Config, s: State, h: nat)
    requires Enabled(cfg, s, Destroy(h))
    ensures var s' := Apply(cfg, s, Destroy(h));
            && |s'.gets| == |s.gets| && s'.free == s.free && s'.made == s.made && s'.blocks == s.blocks
            && forall g :: 0 <= g < |s.gets| ==> s'.gets[g] == s.gets[g].(tasks := s'.gets[g].tasks)
  {
  }

  lemma OnlyTasks(s: State, s': State)
    requires |s'.gets| == |s.gets|
    requires forall g :: 0 <= g < |s.gets| ==> s'.gets[g] == s.gets[g].(tasks := s'.gets[g].tasks)
    ensures CallsContinue(s, s') && SameRoutes(s, s')
  {
  }

  lemma MovedContinues(s: State, s': State, g: nat)
    requires OneCall(s, s', g) && MovesOn(s.gets[g], s'.gets[g])
    ensures CallsContinue(s, s')
    ensures forall h :: 0 <= h < |s.gets| && h != g ==> s'.gets[h] == s.gets[h]
    ensures s'.gets[g].route == s.gets[g].route ==> SameRoutes(s, s')
  {
  }

  lemma JoinedContinues(s: State, s': State, g: nat, k: nat)
    requires Joined(s, s', g, k)
    ensures CallsContinue(s, s') && SameRoutes(s, s')
  {
  }

  lemma EndedContinues(s: State, s': State, g: nat)
    requires Ends(s, s', g)
    ensures CallsContinue(s, s') && SameRoutes(s, s')
  {
  }

  /** No step changes what a call asks for or what it returned; only `Capture` and `Deliver` start one. */
  lemma StepContinues(cfg: Config, s: State, step: Step)
    requires Enabled(cfg, s, step)
    ensures var s' := Apply(cfg, s, step);
            && CallsContinue(s, s')
            && |s'.gets| == |s.gets| + (if step.Capture? || step.Deliver? then 1 else 0)
            && (!step.RouteOne? ==> SameRoutes(s, s'))
            && (step.RouteOne? ==> forall g :: 0 <= g < |s.gets| && g != step.g ==> s'.gets[g] == s.gets[g])
  {
    var s' := Apply(cfg, s, step);
    if MovesOne(step) {
      StepMoves(cfg, s, step);
      MovedContinues(s, s', Actor(step).value);
    } else if step.Deliver? {
      DeliverJoins(cfg, s, step.g, step.k);
      JoinedContinues(s, s', step.g, step.k);
    } else if step.Succeed? {
      SucceedEnds(cfg, s, step.g);
      EndedContinues(s, s', step.g);
    } else if step.GiveUp? {
      GiveUpEnds(cfg, s, step.g);
      EndedContinues(s, s', step.g);
    } else if step.Capture? {
      CaptureStarts(cfg, s, step.node, step.reqs);
    } else {
      SwitchContinues(cfg, s, step);
    }
  }

  lemma CallContinues(cfg: Config, s: State, step: Step, g: nat)
    requires Enabled(cfg, s, step) && g < |s.gets|
    ensures g < |Apply(cfg, s, step).gets| && Continues(s.gets[g], Apply(cfg, s, step).gets[g])
  {
    StepContinues(cfg, s, step);
  }

  // ----- what a call waits for is always at hand

  /** A task being served is served by a running call, and a reply has one answer per entry. */
  ghost predicate TaskLive(s: State, t: Task)
  {
    && (t.stage.Serving? ==> t.stage.child < |s.gets| && Active(s.gets[t.stage.child]))
    && (t.stage.Replied? ==> |t.stage.data| == |t.ix|)
  }

  ghost predicate CallLive(s: State, x: Get)
  {
    && x.node < |s.nodes| && s.nodes[x.node].current.Some?
    && forall k :: 0 <= k < |x.tasks| ==> TaskLive(s, x.tasks[k])
  }

  ghost predicate Live(s: State)
  {
    && (forall i, m :: 0 <= i < |s.nodes| && m in s.nodes[i].table ==> s.nodes[i].current.Some?)
    && (forall g :: 0 <= g < |s.gets| ==> CallLive(s, s.gets[g]))
  }

  lemma MoveLive(cfg: Config, s: State, step: Step)
    requires Live(s) && Enabled(cfg, s, step) && MovesOne(step)
    ensures Live(Apply(cfg, s, step))
  {
    StepMoves(cfg, s, step);
    MovedLive(s, Apply(cfg, s, step), Actor(step).value);
  }

  lemma MovedLive(s: State, s': State, g: nat)
    requires Live(s) && OneCall(s, s', g) && MovesOn(s.gets[g], s'.gets[g])
    ensures Live(s')
  {
    forall h | 0 <= h < |s'.gets|
      ensures CallLive(s', s'.gets[h])
    {
      assert CallLive(s, s.gets[h]);
      forall k | 0 <= k < |s'.gets[h].tasks|
        ensures TaskLive(s', s'.gets[h].tasks[k])
      {
        assert k < |s.gets[h].tasks| ==> TaskLive(s, s.gets[h].tasks[k]);
        if h == g {
          assert StageMoves(s.gets[g], s'.gets[g], k);
        }
      }
    }
  }

  lemma DeliverLive(cfg: Config, s: State, g: nat, k: nat)
    requires Safe(cfg, s) && Live(s) && Enabled(cfg, s, Deliver(g, k))
    ensures Live(Apply(cfg, s, Deliver(g, k)))
  {
    DeliverJoins(cfg, s, g, k);
    JoinedLive(s, Apply(cfg, s, Deliver(g, k)), g, k);
  }

  lemma JoinedLive(s: State, s': State, g: nat, k: nat)
    requires Live(s) && Joined(s, s', g, k) && s'.gets[|s.gets|].tasks == []
    requires k < |s.nodes| && s'.gets[|s.gets|].node == k && s.gets[g].name in s.nodes[k].table
    ensures Live(s')
  {
    forall h | 0 <= h < |s'.gets|
      ensures CallLive(s', s'.gets[h])
    {
      if h < |s.gets| {
        assert CallLive(s, s.gets[h]);
        forall j | 0 <= j < |s'.gets[h].tasks|
          ensures TaskLive(s', s'.gets[h].tasks[j])
        {
          assert TaskLive(s, s.gets[h].tasks[j]);
        }
      }
    }
  }

  /** A call that ends leaves no task waiting for it, if its answers fit the task's entries. */
  lemma EndedLive(cfg: Config, s: State, s': State, g: nat)
    requires Safe(cfg, s) && Live(s) && Ends(s, s', g)
    requires forall h, k ::
               0 <= h < |s.gets| && 0 <= k < |s.gets[h].tasks| && s.gets[h].tasks[k].stage == Serving(g) ==>
               s'.gets[h].tasks[k].stage.Replied? && |s'.gets[g].phase.data| == |s.gets[h].tasks[k].ix|
    ensures Live(s')
  {
    forall h | 0 <= h < |s'.gets|
      ensures CallLive(s', s'.gets[h])
    {
      assert CallLive(s, s.gets[h]);
      forall k | 0 <= k < |s'.gets[h].tasks|
        ensures TaskLive(s', s'.gets[h].tasks[k])
      {
        assert TaskLive(s, s.gets[h].tasks[k]);
      }
    }
  }

  /** The task waiting for call `g` gets `g`'s answer, one per entry. */
  lemma AnsweredTask(cfg: Config, s: State, g: nat, h: nat, k: nat)
    requires Safe(cfg, s) && Enabled(cfg, s, Succeed(g)) && HasTask(s, h, k) && s.gets[h].tasks[k].stage == Serving(g)
    ensures var s' := Apply(cfg, s, Succeed(g));
            && HasTask(s', h, k) && s'.gets[h].tasks[k].stage.Replied?
            && s'.gets[g].phase.Returned? && |s'.gets[g].phase.data| == |s.gets[h].tasks[k].ix|
  {
    assert s.gets[g].parent == Some((h, k)) by {
      assert Linked(cfg, s, h);
    }
    assert ParentOk(s, g) by {
      assert Linked(cfg, s, g);
    }
  }

  lemma SucceedLive(cfg: Config, s: State, g: nat)
    requires Safe(cfg, s) && Live(s) && Enabled(cfg, s, Succeed(g))
    ensures Live(Apply(cfg, s, Succeed(g)))
  {
    SucceedEnds(cfg, s, g);
    forall h, k | 0 <= h < |s.gets| && 0 <= k < |s.gets[h].tasks| && s.gets[h].tasks[k].stage == Serving(g)
      ensures var s' := Apply(cfg, s, Succeed(g));
              s'.gets[h].tasks[k].stage.Replied? && |s'.gets[g].phase.data| == |s.gets[h].tasks[k].ix|
    {
      AnsweredTask(cfg, s, g, h, k);
    }
    EndedLive(cfg, s, Apply(cfg, s, Succeed(g)), g);
  }

  lemma GiveUpLive(cfg: Config, s: State, g: nat)
    requires Safe(cfg, s) && Live(s) && Enabled(cfg, s, GiveUp(g))
    ensures Live(Apply(cfg, s, GiveUp(g)))
  {
    GiveUpEnds(cfg, s, g);
    OnlyClientsFail(cfg, s.gets[g]);
    forall h | 0 <= h < |s.gets|
      ensures forall k :: 0 <= k < |s.gets[h].tasks| ==> s.gets[h].tasks[k].stage != Serving(g)
    {
      assert Linked(cfg, s, h);
    }
    EndedLive(cfg, s, Apply(cfg, s, GiveUp(g)), g);
  }

  /** Calls may lose queued tasks, and nodes only move on. */
  lemma SwitchLive(cfg: Config, s: State, step: Step)
    requires Live(s) && Enabled(cfg, s, step) && Actor(step).None?
    ensures Live(Apply(cfg, s, step))
  {
    if step.Destroy? {
      DestroyLive(cfg, s, step.h);
    } else {
      OtherLive(cfg, s, step);
    }
  }

  lemma DestroyLive(cfg: Config, s: State, h: nat)
    requires Live(s) && Enabled(cfg, s, Destroy(h))
    ensures Live(Apply(cfg, s, Destroy(h)))
  {
    var s' := Apply(cfg, s, Destroy(h));
    forall g | 0 <= g < |s'.gets|
      ensures CallLive(s', s'.gets[g])
    {
      assert CallLive(s, s.gets[g]);
      forall k | 0 <= k < |s'.gets[g].tasks|
        ensures TaskLive(s', s'.gets[g].tasks[k])
      {
        assert TaskLive(s, s.gets[g].tasks[k]);
      }
    }
  }

  lemma OtherLive(cfg: Config, s: State, step: Step)
    requires Live(s) && Enabled(cfg, s, step) && Actor(step).None? && !step.Destroy?
    ensures Live(Apply(cfg, s, step))
  {
    var s' := Apply(cfg, s, step);
    forall g | 0 <= g < |s'.gets|
      ensures CallLive(s', s'.gets[g])
    {
      if g < |s.gets| {
        assert CallLive(s, s.gets[g]);
        forall k | 0 <= k < |s'.gets[g].tasks|
          ensures TaskLive(s', s'.gets[g].tasks[k])
        {
          assert TaskLive(s, s.gets[g].tasks[k]);
        }
      }
    }
  }

  lemma StepLive(cfg: Config, s: State, step: Step)
    requires Safe(cfg, s) && Live(s) && Enabled(cfg, s, step)
    ensures Live(Apply(cfg, s, step))
  {
    if Actor(step).None? {
      SwitchLive(cfg, s, step);
    } else if step.Deliver? {
      DeliverLive(cfg, s, step.g, step.k);
    } else if step.Succeed? {
      SucceedLive(cfg, s, step.g);
    } else if step.GiveUp? {
      GiveUpLive(cfg, s, step.g);
    } else {
      MoveLive(cfg, s, step);
    }
  }

  lemma {:induction false} RunsAreLive(cfg: Config, steps: seq<Step>)
    requires Legal(cfg, steps)
    ensures Live(Final(cfg, steps))
  {
    if steps != [] {
      var n := |steps| - 1;
      RunsAreLive(cfg, steps[..n]);
      RunsAreSafe(cfg, steps[..n]);
      StepLive(cfg, Final(cfg, steps[..n]), steps[n]);
    }
  }

  /** A peer never sends a short reply, so the branch that rejects one is not taken. */
  lemma NoShortReply(cfg: Config, steps: seq<Step>, g: nat, k: nat)
    requires Legal(cfg, steps)
    ensures !Enabled(cfg, Final(cfg, steps), Reject(g, k))
  {
    var s := Final(cfg, steps);
    RunsAreLive(cfg, steps);
    if HasTask(s, g, k) {
      assert CallLive(s, s.gets[g]) && TaskLive(s, s.gets[g].tasks[k]);
    }
  }

  /** The task is somewhere a step can still move it: queued, being read, on the wire, or back with a reply. */
  ghost predicate Pending(t: Task)
  {
    t.stage.Queued? || t.stage.Running? || t.stage.Sent? || t.stage.Serving? || t.stage.Replied?
  }

  /** A call waiting with neither flag set has a pending task, and none of its tasks was dropped. */
  lemma WaitingPending(cfg: Config, s: State, g: nat) returns (k: nat)
    requires Safe(cfg, s) && g < |s.gets|
    requires var x := s.gets[g]; x.phase.Waiting? && !x.finish && !x.faild
    ensures var x := s.gets[g]; k < |x.tasks| && Pending(x.tasks[k])
    ensures var x := s.gets[g]; forall j :: 0 <= j < |x.tasks| ==> !x.tasks[j].stage.Dropped?
  {
    var x := s.gets[g];
    var own := if x.parent.Some? then 0 else x.node;
    forall j | 0 <= j < |x.tasks|
      ensures !x.tasks[j].stage.Dropped? && !x.tasks[j].stage.Unsent? && !x.tasks[j].stage.Failed?
      ensures x.tasks[j].stage.Skipped? ==> Settled(x.tasks[j]) && j != own
    {
      assert StageOk(x, j);
    }
    if Pending(x.tasks[own]) {
      k := own;
    } else {
      assert x.tasks[own].stage.Finished?;
      FinishMeansAllDone(cfg, x);
      k :| 0 <= k < |x.tasks| && !Settled(x.tasks[k]);
    }
  }

  /**
   No wait is in vain: in every reachable state a call waiting with neither flag set has a pending task,
   also when the request list is empty; and no task it waits for was dropped with a destroyed handler.
   */
  lemma WaitingHasPendingTask(cfg: Config, steps: seq<Step>, g: nat) returns (k: nat)
    requires Legal(cfg, steps) && g < |Final(cfg, steps).gets|
    requires var x := Final(cfg, steps).gets[g]; x.phase.Waiting? && !x.finish && !x.faild
    ensures var x := Final(cfg, steps).gets[g]; k < |x.tasks| && Pending(x.tasks[k])
    ensures var x := Final(cfg, steps).gets[g]; forall j :: 0 <= j < |x.tasks| ==> !x.tasks[j].stage.Dropped?
  {
    RunsAreSafe(cfg, steps);
    k := WaitingPending(cfg, Final(cfg, steps), g);
  }
}
