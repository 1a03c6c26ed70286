/**
 What holds in every reachable state of the cluster, with no premise on when models are switched or
 unloaded: block ownership, completion accounting, and the handler tables.
 */
module ClusterSafety {
  import opened Bytes
  import opened Requests
  import opened Sharding
  import opened Cluster

  // ----- counting finished work

  ghost function Weight(t: Task): nat
  {
    if t.stage.Finished? then |t.ix| else 0
  }

  ghost function DoneSum(tasks: seq<Task>): nat
  {
    if tasks == [] then 0 else DoneSum(tasks[..|tasks| - 1]) + Weight(tasks[|tasks| - 1])
  }

  lemma {:induction false} DoneSumUpdate(tasks: seq<Task>, k: nat, t: Task)
    requires k < |tasks|
    ensures DoneSum(tasks[k := t]) == DoneSum(tasks) - Weight(tasks[k]) + Weight(t)
  {
    var n := |tasks| - 1;
    if k == n {
      assert tasks[k := t][..n] == tasks[..n];
    } else {
      assert tasks[k := t][..n] == tasks[..n][k := t];
      DoneSumUpdate(tasks[..n], k, t);
    }
  }

  lemma {:induction false} DoneSumZero(tasks: seq<Task>)
    requires forall k :: 0 <= k < |tasks| ==> Weight(tasks[k]) == 0
    ensures DoneSum(tasks) == 0
  {
    if tasks != [] {
      DoneSumZero(tasks[..|tasks| - 1]);
    }
  }

  lemma {:induction false} DoneSumSame(a: seq<Task>, b: seq<Task>)
    requires |a| == |b| && forall k :: 0 <= k < |a| ==> Weight(a[k]) == Weight(b[k])
    ensures DoneSum(a) == DoneSum(b)
  {
    if a != [] {
      DoneSumSame(a[..|a| - 1], b[..|b| - 1]);
    }
  }

  ghost predicate Bucketed(tasks: seq<Task>, route: seq<nat>)
  {
    forall k :: 0 <= k < |tasks| ==> tasks[k].ix == Indices(route, k)
  }

  ghost predicate Settled(t: Task)
  {
    t.stage.Finished? || t.ix == []
  }

  lemma SettledSnoc(tasks: seq<Task>)
    requires tasks != []
    ensures var n := |tasks| - 1;
            (forall k :: 0 <= k < |tasks| ==> Settled(tasks[k])) <==>
            (forall k :: 0 <= k < n ==> Settled(tasks[..n][k])) && Settled(tasks[n])
  {
    var n := |tasks| - 1;
    if forall k :: 0 <= k < n ==> Settled(tasks[..n][k]) {
      forall k | 0 <= k < n
        ensures Settled(tasks[k])
      {
        assert tasks[..n][k] == tasks[k];
      }
    }
  }

  /** The finished count never exceeds the number of requests, and reaches it only when all work is done. */
  lemma {:induction false} DoneSumFull(tasks: seq<Task>, route: seq<nat>)
    requires Bucketed(tasks, route)
    ensures DoneSum(tasks) <= Routed(route, |tasks|)
    ensures DoneSum(tasks) == Routed(route, |tasks|) <==> forall k :: 0 <= k < |tasks| ==> Settled(tasks[k])
  {
    if tasks != [] {
      var n := |tasks| - 1;
      DoneSumFull(tasks[..n], route);
      SettledSnoc(tasks);
      assert Weight(tasks[n]) <= |tasks[n].ix| == |Indices(route, n)|;
      assert Weight(tasks[n]) == |tasks[n].ix| <==> Settled(tasks[n]);
    }
  }

  // ----- the invariant

  ghost predicate Started(x: Get)
  {
    !x.phase.Routing?
  }

  /** A reply carries nothing, or one answer of the right length per entry. */
  ghost predicate Answers(x: Get, ix: seq<nat>, data: seq<seq<Byte>>)
  {
    && |data| == |ix|
    && forall c :: 0 <= c < |ix| ==> ix[c] < |x.reqs| && |data[c]| == x.reqs[ix[c]].len
  }

  ghost predicate NotPushed(x: Get, j: int)
  {
    x.phase.Pushing? && x.phase.next <= j
  }

  ghost predicate StageOk(x: Get, k: nat)
    requires k < |x.tasks|
  {
    var ix := x.tasks[k].ix;
    && (x.tasks[k].stage.Unsent? <==> NotPushed(x, k))
    && (match x.tasks[k].stage
        case Unsent => true
        case Skipped => !Local(x, k) && ix == []
        case Queued => Local(x, k)
        case Running(d) => Local(x, k) && d <= |ix|
        case Sent => !Local(x, k) && ix != []
        case Serving(_) => !Local(x, k) && ix != []
        case Replied(data, d) =>
          !Local(x, k) && ix != [] && d <= |ix| && (d > 0 ==> data != []) && (data == [] || Answers(x, ix, data))
        case Finished => true
        case Failed => !Local(x, k) && ix != [] && x.faild
        case Dropped => Local(x, k) && x.phase.Returned?)
  }

  ghost predicate HasFailed(x: Get)
  {
    exists k :: 0 <= k < |x.tasks| && x.tasks[k].stage.Failed?
  }

  ghost predicate HasFinished(x: Get)
  {
    exists k :: 0 <= k < |x.tasks| && x.tasks[k].stage.Finished?
  }

  /** The record of one `Get` on its own. */
  ghost predicate GetOk(cfg: Config, x: Get)
  {
    && x.node < cfg.nodes
    && Servable(cfg, x.name)
    && Admissible(x.reqs)
    && |x.route| <= |x.reqs|
    && (forall i :: 0 <= i < |x.route| ==> x.route[i] < Width(cfg, x))
    && x.finishNum == DoneSum(x.tasks)
    && (x.finish ==> x.finishNum >= |x.reqs|)
    && (x.faild ==> HasFailed(x))
    && (HasFinished(x) && x.finishNum >= |x.reqs| ==> x.finish)
    && (x.phase.Routing? ==> x.tasks == [])
    && (Started(x) ==> |x.route| == |x.reqs| && |x.tasks| == Width(cfg, x) && Bucketed(x.tasks, x.route))
    && (forall k :: 0 <= k < |x.tasks| ==> StageOk(x, k))
    && (x.phase.Pushing? ==> x.phase.next < |x.tasks|)
    && (x.phase.Returned? ==> ReturnOk(x))
  }

  ghost predicate ReturnOk(x: Get)
    requires x.phase.Returned?
  {
    if x.phase.status == 0 then
      && x.finish
      && |x.phase.data| == |x.reqs|
      && (forall i :: 0 <= i < |x.reqs| ==> |x.phase.data[i]| == x.reqs[i].len)
    else
      x.phase.status == -1 && x.faild && x.phase.data == []
  }

  /** Its links to the handler it holds, to the task it serves, and to the calls serving its own tasks. */
  ghost predicate Linked(cfg: Config, s: State, g: nat)
    requires g < |s.gets|
  {
    var x := s.gets[g];
    && x.handler < |s.handlers|
    && s.handlers[x.handler].node == x.node
    && s.handlers[x.handler].name == x.name
    && (Active(x) ==> !s.handlers[x.handler].gone)
    && (Active(x) && x.parent.None? ==> s.handlers[x.handler].loaded)
    && (x.parent.Some? ==> ParentOk(s, g))
    && (forall k :: 0 <= k < |x.tasks| && x.tasks[k].stage.Serving? ==>
          x.tasks[k].stage.child < |s.gets| && s.gets[x.tasks[k].stage.child].parent == Some((g, k)))
  }

  ghost predicate ParentOk(s: State, c: nat)
    requires c < |s.gets| && s.gets[c].parent.Some?
  {
    var x := s.gets[c];
    var (p, k) := x.parent.value;
    && p < c
    && s.gets[p].parent.None?
    && Started(s.gets[p])
    && x.node == k
    && k != s.gets[p].node
    && x.name == s.gets[p].name
    && TaskIndexed(s.gets[p], k)
    && x.reqs == ToWire(Entries(s.gets[p].reqs, s.gets[p].tasks[k].ix))
  }

  ghost predicate NodeOk(cfg: Config, s: State, i: nat)
    requires i < |s.nodes|
  {
    var n := s.nodes[i];
    && (forall m :: m in n.table ==>
          && n.table[m] < |s.handlers|
          && s.handlers[n.table[m]].name == m
          && s.handlers[n.table[m]].node == i
          && !s.handlers[n.table[m]].gone
          && Servable(cfg, m))
    && (n.current.Some? ==>
          && n.perNode > 0
          && n.current.value < |s.handlers|
          && s.handlers[n.current.value].loaded
          && s.handlers[n.current.value].name in n.table
          && n.table[s.handlers[n.current.value].name] == n.current.value)
  }

  /** Every block has at most one owner: one pool position or one `Get`. */
  ghost predicate Ownership(s: State)
  {
    && (forall g :: 0 <= g < |s.gets| && Holds(s.gets[g]) ==> s.gets[g].block < |s.blocks|)
    && (forall g, h :: 0 <= g < |s.gets| && 0 <= h < |s.gets| && g != h && Holds(s.gets[g]) && Holds(s.gets[h]) ==>
          s.gets[g].block != s.gets[h].block)
    && (forall p: nat, a: nat :: InPool(s, p, a) ==> s.free[p][a] < |s.blocks|)
    && (forall p: nat, a: nat, g :: InPool(s, p, a) && 0 <= g < |s.gets| && Holds(s.gets[g]) ==>
          s.free[p][a] != s.gets[g].block)
    && (forall p: nat, a: nat, q: nat, b: nat :: InPool(s, p, a) && InPool(s, q, b) && (p != q || a != b) ==>
          s.free[p][a] != s.free[q][b])
  }

  ghost predicate InPool(s: State, p: nat, a: nat)
  {
    p < |s.free| && a < |s.free[p]|
  }

  ghost predicate Shape(cfg: Config, s: State)
  {
    && |s.nodes| == cfg.nodes
    && |s.free| == |s.made| == 2 * cfg.nodes
    && (forall b :: 0 <= b < |s.blocks| ==> |s.blocks[b]| == BLOCK_SIZE)
  }

  ghost predicate Safe(cfg: Config, s: State)
  {
    && Shape(cfg, s)
    && (forall i :: 0 <= i < |s.nodes| ==> NodeOk(cfg, s, i))
    && (forall g :: 0 <= g < |s.gets| ==> GetOk(cfg, s.gets[g]))
    && (forall g :: 0 <= g < |s.gets| ==> Linked(cfg, s, g))
    && Ownership(s)
  }

  // ----- steps that change one Get in place

  ghost predicate SameTasks(x: Get, y: Get)
  {
    |x.tasks| == |y.tasks| && forall k :: 0 <= k < |x.tasks| ==> x.tasks[k].ix == y.tasks[k].ix
  }

  /** `x` may become `y`: the same call, no less started, no more active, and no new call serving it. */
  ghost predicate Evolves(x: Get, y: Get)
  {
    && x.node == y.node && x.name == y.name && x.handler == y.handler && x.parent == y.parent && x.reqs == y.reqs
    && (Active(y) ==> Active(x))
    && (Started(x) ==> Started(y) && SameTasks(x, y))
    && (forall k :: 0 <= k < |y.tasks| && y.tasks[k].stage.Serving? ==>
          k < |x.tasks| && y.tasks[k].stage == x.tasks[k].stage)
  }

  lemma ReplaceLinked(cfg: Config, s: State, s': State, g: nat, c: nat)
    requires g < |s.gets| == |s'.gets| && c < |s.gets|
    requires s'.handlers == s.handlers && s'.gets == s.gets[g := s'.gets[g]]
    requires Evolves(s.gets[g], s'.gets[g])
    requires Linked(cfg, s, c)
    ensures Linked(cfg, s', c)
  {
    if s'.gets[c].parent.Some? {
      var (p, k) := s.gets[c].parent.value;
      assert ParentOk(s, c);
      assert TaskIndexed(s'.gets[p], k);
    }
  }

  lemma NodesFrame(cfg: Config, s: State, s': State)
    requires s'.nodes == s.nodes && s'.handlers == s.handlers
    requires forall i :: 0 <= i < |s.nodes| ==> NodeOk(cfg, s, i)
    ensures forall i :: 0 <= i < |s'.nodes| ==> NodeOk(cfg, s', i)
  {
    forall i | 0 <= i < |s'.nodes|
      ensures NodeOk(cfg, s', i)
    {
      assert NodeOk(cfg, s, i);
    }
  }

  /** Who holds which block is as before, and calls that have joined hold none. */
  lemma OwnershipKept(s: State, s': State)
    requires Ownership(s) && s'.free == s.free && |s'.blocks| == |s.blocks| && |s.gets| <= |s'.gets|
    requires forall g :: 0 <= g < |s.gets| ==>
               Holds(s'.gets[g]) == Holds(s.gets[g]) && s'.gets[g].block == s.gets[g].block
    requires forall g :: |s.gets| <= g < |s'.gets| ==> !Holds(s'.gets[g])
    ensures Ownership(s')
  {
    forall p: nat, a: nat | InPool(s', p, a)
      ensures InPool(s, p, a)
    {
    }
  }

  lemma ReplaceSafe(cfg: Config, s: State, s': State, g: nat)
    requires Safe(cfg, s) && g < |s.gets| == |s'.gets|
    requires s' == s.(gets := s.gets[g := s'.gets[g]], blocks := s'.blocks)
    requires |s'.blocks| == |s.blocks| && Shape(cfg, s')
    requires Evolves(s.gets[g], s'.gets[g]) && GetOk(cfg, s'.gets[g])
    requires Holds(s.gets[g]) == Holds(s'.gets[g]) && s.gets[g].block == s'.gets[g].block
    ensures Safe(cfg, s')
  {
    forall c | 0 <= c < |s'.gets|
      ensures Linked(cfg, s', c)
    {
      ReplaceLinked(cfg, s, s', g, c);
    }
    OwnershipKept(s, s');
    NodesFrame(cfg, s, s');
    assert forall c :: 0 <= c < |s'.gets| ==> GetOk(cfg, s'.gets[c]);
  }

  lemma StartedIndices(cfg: Config, x: Get, k: nat)
    requires GetOk(cfg, x) && k < |x.tasks|
    ensures TaskIndexed(x, k) && Increasing(x.tasks[k].ix)
    ensures x.tasks[k].ix == Indices(x.route, k) && |x.route| == |x.reqs|
  {
    IndicesIncrease(x.route, k);
  }

  lemma StageFrame(x: Get, y: Get, j: nat)
    requires j < |x.tasks| == |y.tasks| && x.tasks[j] == y.tasks[j]
    requires x.node == y.node && x.parent == y.parent && x.reqs == y.reqs && (x.faild ==> y.faild)
    requires NotPushed(x, j) == NotPushed(y, j)
    requires x.phase.Returned? ==> y.phase.Returned?
    requires StageOk(x, j)
    ensures StageOk(y, j)
  {
  }

  /** `x` becomes `y` by a change of task k only, with the counters kept as the code keeps them. */
  ghost predicate OneTaskChanged(x: Get, y: Get, k: nat)
  {
    && k < |x.tasks| == |y.tasks|
    && !x.tasks[k].stage.Finished? && !x.tasks[k].stage.Failed?
    && y.tasks == x.tasks[k := y.tasks[k]] && y.tasks[k].ix == x.tasks[k].ix
    && y == x.(tasks := y.tasks, phase := y.phase, finishNum := y.finishNum, finish := y.finish, faild := y.faild)
    && y.finishNum == x.finishNum + Weight(y.tasks[k])
    && y.finish == (x.finish || (y.tasks[k].stage.Finished? && y.finishNum >= |x.reqs|))
    && y.faild == (x.faild || y.tasks[k].stage.Failed?)
    && (forall j :: 0 <= j < |x.tasks| && j != k ==> NotPushed(x, j) == NotPushed(y, j))
    && (x.phase.Returned? <==> y.phase.Returned?)
    && (y.phase.Returned? ==> y.phase == x.phase)
    && (y.phase.Pushing? && y.phase != x.phase ==> y.phase.next < |y.tasks|)
    && !y.phase.Routing?
  }

  lemma TaskChange(cfg: Config, x: Get, y: Get, k: nat)
    requires GetOk(cfg, x) && OneTaskChanged(x, y, k) && StageOk(y, k)
    ensures GetOk(cfg, y)
  {
    DoneSumUpdate(x.tasks, k, y.tasks[k]);
    forall j | 0 <= j < |y.tasks|
      ensures StageOk(y, j)
    {
      if j != k {
        StageFrame(x, y, j);
      }
    }
    FlagsAfter(x, y, k);
  }

  lemma FlagsAfter(x: Get, y: Get, k: nat)
    requires OneTaskChanged(x, y, k) && (x.faild ==> HasFailed(x))
    ensures y.faild ==> HasFailed(y)
    ensures HasFinished(y) ==> HasFinished(x) || y.tasks[k].stage.Finished?
  {
    if x.faild {
      var j :| 0 <= j < |x.tasks| && x.tasks[j].stage.Failed?;
      assert y.tasks[j].stage.Failed?;
    } else if y.faild {
      assert y.tasks[k].stage.Failed?;
    }
    if HasFinished(y) && !y.tasks[k].stage.Finished? {
      var j :| 0 <= j < |y.tasks| && y.tasks[j].stage.Finished?;
      assert x.tasks[j].stage.Finished?;
    }
  }

  /** Once `finish` is set nothing but empty tasks can still be pending, so `faild` cannot be set too. */
  lemma FinishMeansAllDone(cfg: Config, x: Get)
    requires GetOk(cfg, x) && Started(x)
    ensures x.finishNum <= |x.reqs|
    ensures x.finishNum == |x.reqs| <==> forall k :: 0 <= k < |x.tasks| ==> Settled(x.tasks[k])
    ensures x.finish ==> forall k :: 0 <= k < |x.tasks| ==> Settled(x.tasks[k])
    ensures !(x.finish && x.faild)
  {
    RoutedAll(x.route, Width(cfg, x));
    DoneSumFull(x.tasks, x.route);
    if x.faild {
      var k :| 0 <= k < |x.tasks| && x.tasks[k].stage.Failed?;
      assert StageOk(x, k);
      assert !Settled(x.tasks[k]);
    }
  }

  /** A task with an entry left to copy belongs to a call that still holds its block. */
  lemma WriterHolds(cfg: Config, x: Get, k: nat)
    requires GetOk(cfg, x) && k < |x.tasks|
    requires x.tasks[k].stage.Running? || x.tasks[k].stage.Replied?
    requires x.tasks[k].ix != []
    ensures Holds(x)
  {
    FinishMeansAllDone(cfg, x);
    assert !Settled(x.tasks[k]);
  }

  lemma RouteChange(cfg: Config, x: Get, k: nat)
    requires GetOk(cfg, x) && x.phase.Routing? && |x.route| < |x.reqs| && k < Width(cfg, x)
    ensures GetOk(cfg, x.(route := x.route + [k])) && Evolves(x, x.(route := x.route + [k]))
  {
  }

  // ----- every step keeps Safe

  lemma CaptureSafe(cfg: Config, s: State, node: nat, reqs: seq<SliceRequest>)
    requires Safe(cfg, s) && Enabled(cfg, s, Capture(node, reqs))
    ensures Safe(cfg, Apply(cfg, s, Capture(node, reqs)))
  {
    var s' := Apply(cfg, s, Capture(node, reqs));
    assert NodeOk(cfg, s, node);
    var h := s.nodes[node].current.value;
    AppendSafe(cfg, s, s', s'.gets[|s.gets|]);
  }

  /** A new `Get` joins: it holds no block and serves no one's tasks yet. */
  lemma AppendSafe(cfg: Config, s: State, s': State, x: Get)
    requires Safe(cfg, s) && s' == s.(gets := s.gets + [x])
    requires x.phase.Routing? && GetOk(cfg, x) && Linked(cfg, s', |s.gets|)
    ensures Safe(cfg, s')
  {
    forall c | 0 <= c < |s'.gets|
      ensures Linked(cfg, s', c)
    {
      if c < |s.gets| {
        assert Linked(cfg, s, c);
        if s.gets[c].parent.Some? {
          assert ParentOk(s, c);
        }
      }
    }
    NodesFrame(cfg, s, s');
    OwnershipKept(s, s');
  }

  lemma AllocateSafe(cfg: Config, s: State, g: nat, newBlock: Option<seq<Byte>>)
    requires Safe(cfg, s) && Enabled(cfg, s, Allocate(g, newBlock))
    ensures Safe(cfg, Apply(cfg, s, Allocate(g, newBlock)))
  {
    AllocateOwnership(cfg, s, g, newBlock);
    AllocateShape(cfg, s, g, newBlock);
    AllocatedSafe(cfg, s, Apply(cfg, s, Allocate(g, newBlock)), g);
  }

  /** Call `g` has its block and its tasks. */
  ghost predicate Allocated(cfg: Config, s: State, s': State, g: nat)
  {
    && g < |s.gets| == |s'.gets| && s'.gets == s.gets[g := s'.gets[g]]
    && s'.nodes == s.nodes && s'.handlers == s.handlers && Shape(cfg, s')
    && s.gets[g].phase.Routing? && |s.gets[g].route| == |s.gets[g].reqs|
    && var x, y := s.gets[g], s'.gets[g];
       && y == x.(tasks := y.tasks, phase := Pushing(0), block := y.block)
       && |y.tasks| == Width(cfg, x) && Bucketed(y.tasks, y.route)
       && forall k :: 0 <= k < |y.tasks| ==> y.tasks[k].stage.Unsent?
  }

  lemma AllocateShape(cfg: Config, s: State, g: nat, newBlock: Option<seq<Byte>>)
    requires Shape(cfg, s) && Enabled(cfg, s, Allocate(g, newBlock))
    ensures Allocated(cfg, s, Apply(cfg, s, Allocate(g, newBlock)), g)
  {
  }

  lemma AllocatedSafe(cfg: Config, s: State, s': State, g: nat)
    requires Safe(cfg, s) && Allocated(cfg, s, s', g) && Ownership(s')
    ensures Safe(cfg, s')
  {
    AllocateGetOk(cfg, s.gets[g], s'.gets[g]);
    forall c | 0 <= c < |s'.gets|
      ensures Linked(cfg, s', c) && GetOk(cfg, s'.gets[c])
    {
      ReplaceLinked(cfg, s, s', g, c);
      assert GetOk(cfg, s.gets[c]);
    }
    NodesFrame(cfg, s, s');
  }

  lemma AllocateGetOk(cfg: Config, x: Get, y: Get)
    requires GetOk(cfg, x) && x.phase.Routing? && |x.route| == |x.reqs|
    requires y == x.(tasks := y.tasks, phase := Pushing(0), block := y.block)
    requires |y.tasks| == Width(cfg, x) && Bucketed(y.tasks, y.route)
    requires forall k :: 0 <= k < |y.tasks| ==> y.tasks[k].stage.Unsent?
    ensures GetOk(cfg, y)
  {
    DoneSumZero(y.tasks);
    forall k | 0 <= k < |y.tasks|
      ensures StageOk(y, k)
    {
    }
  }

  lemma AllocateOwnership(cfg: Config, s: State, g: nat, newBlock: Option<seq<Byte>>)
    requires Ownership(s) && Shape(cfg, s) && Enabled(cfg, s, Allocate(g, newBlock))
    ensures Ownership(Apply(cfg, s, Allocate(g, newBlock)))
  {
    var s' := Apply(cfg, s, Allocate(g, newBlock));
    var pool := PoolOf(s.gets[g]);
    forall p: nat, a: nat | InPool(s', p, a)
      ensures InPool(s, p, a) && s'.free[p][a] == s.free[p][a]
    {
    }
    if newBlock.None? {
      assert InPool(s, pool, |s.free[pool]| - 1);
    }
  }

  lemma RouteSafe(cfg: Config, s: State, g: nat)
    requires Safe(cfg, s) && Enabled(cfg, s, RouteOne(g))
    ensures Safe(cfg, Apply(cfg, s, RouteOne(g)))
  {
    var s' := Apply(cfg, s, RouteOne(g));
    RouteChange(cfg, s.gets[g], s'.gets[g].route[|s.gets[g].route|]);
    ReplaceSafe(cfg, s, s', g);
  }

  lemma UnlockSafe(cfg: Config, s: State, g: nat)
    requires Safe(cfg, s) && Enabled(cfg, s, Unlock(g))
    ensures Safe(cfg, Apply(cfg, s, Unlock(g)))
  {
    UnlockChange(cfg, s.gets[g]);
    ReplaceSafe(cfg, s, Apply(cfg, s, Unlock(g)), g);
  }

  lemma UnlockChange(cfg: Config, x: Get)
    requires GetOk(cfg, x) && x.phase.Routing?
    ensures GetOk(cfg, x.(making := true)) && Evolves(x, x.(making := true))
  {
  }

  /** Task `k` of call `g` changes its stage, and nothing else but bytes of blocks. */
  ghost predicate TaskStep(s: State, s': State, g: nat, k: nat)
  {
    && HasTask(s, g, k) && |s'.gets| == |s.gets|
    && s' == s.(gets := s.gets[g := s'.gets[g]], blocks := s'.blocks)
    && |s'.blocks| == |s.blocks| && (forall b :: 0 <= b < |s.blocks| ==> |s'.blocks[b]| == |s.blocks[b]|)
    && OneTaskChanged(s.gets[g], s'.gets[g], k) && StageOk(s'.gets[g], k)
    && !s'.gets[g].tasks[k].stage.Serving?
    && Active(s'.gets[g]) == Active(s.gets[g]) && Started(s.gets[g])
  }

  lemma TaskStepEvolves(s: State, s': State, g: nat, k: nat)
    requires TaskStep(s, s', g, k)
    ensures Evolves(s.gets[g], s'.gets[g]) && (s.gets[g].faild ==> s'.gets[g].faild)
  {
  }

  lemma TaskStepKeeps(cfg: Config, s: State, s': State, g: nat, k: nat)
    requires Safe(cfg, s) && TaskStep(s, s', g, k)
    ensures Safe(cfg, s')
  {
    TaskChange(cfg, s.gets[g], s'.gets[g], k);
    ReplaceSafe(cfg, s, s', g);
  }

  lemma StageKnown(cfg: Config, s: State, g: nat, k: nat)
    requires Safe(cfg, s) && HasTask(s, g, k)
    ensures StageOk(s.gets[g], k) && Started(s.gets[g])
  {
    assert GetOk(cfg, s.gets[g]);
  }

  lemma PushSafe(cfg: Config, s: State, g: nat)
    requires Safe(cfg, s) && Enabled(cfg, s, Push(g))
    ensures Safe(cfg, Apply(cfg, s, Push(g)))
  {
    StageKnown(cfg, s, g, s.gets[g].phase.next);
    PushStep(cfg, s, g);
    TaskStepKeeps(cfg, s, Apply(cfg, s, Push(g)), g, s.gets[g].phase.next);
  }

  lemma PushStep(cfg: Config, s: State, g: nat)
    requires Enabled(cfg, s, Push(g)) && StageOk(s.gets[g], s.gets[g].phase.next)
    ensures TaskStep(s, Apply(cfg, s, Push(g)), g, s.gets[g].phase.next)
  {
  }

  lemma PopSafe(cfg: Config, s: State, g: nat, k: nat)
    requires Safe(cfg, s) && Enabled(cfg, s, Pop(g, k))
    ensures Safe(cfg, Apply(cfg, s, Pop(g, k)))
  {
    StageKnown(cfg, s, g, k);
    PopStep(cfg, s, g, k);
    TaskStepKeeps(cfg, s, Apply(cfg, s, Pop(g, k)), g, k);
  }

  lemma PopStep(cfg: Config, s: State, g: nat, k: nat)
    requires Enabled(cfg, s, Pop(g, k)) && StageOk(s.gets[g], k) && Started(s.gets[g])
    ensures TaskStep(s, Apply(cfg, s, Pop(g, k)), g, k)
  {
  }

  lemma CompleteSafe(cfg: Config, s: State, g: nat, k: nat)
    requires Safe(cfg, s) && Enabled(cfg, s, Complete(g, k))
    ensures Safe(cfg, Apply(cfg, s, Complete(g, k)))
  {
    StageKnown(cfg, s, g, k);
    CompleteStep(cfg, s, g, k);
    TaskStepKeeps(cfg, s, Apply(cfg, s, Complete(g, k)), g, k);
  }

  lemma CompleteStep(cfg: Config, s: State, g: nat, k: nat)
    requires Enabled(cfg, s, Complete(g, k)) && StageOk(s.gets[g], k) && Started(s.gets[g])
    ensures TaskStep(s, Apply(cfg, s, Complete(g, k)), g, k)
  {
  }

  /** A remote task is lost, or its reply turned down. */
  lemma FailSafe(cfg: Config, s: State, g: nat, k: nat)
    requires Safe(cfg, s) && HasTask(s, g, k)
    requires var st := s.gets[g].tasks[k].stage; st.Sent? || st.Serving? || st.Replied?
    ensures Safe(cfg, SetGet(s, g, SetStage(s.gets[g], k, Failed).(faild := true)))
  {
    StageKnown(cfg, s, g, k);
    FailStep(s, g, k);
    TaskStepKeeps(cfg, s, SetGet(s, g, SetStage(s.gets[g], k, Failed).(faild := true)), g, k);
  }

  lemma FailStep(s: State, g: nat, k: nat)
    requires HasTask(s, g, k) && StageOk(s.gets[g], k) && Started(s.gets[g])
    requires var st := s.gets[g].tasks[k].stage; st.Sent? || st.Serving? || st.Replied?
    ensures TaskStep(s, SetGet(s, g, SetStage(s.gets[g], k, Failed).(faild := true)), g, k)
  {
  }

  lemma LoseSafe(cfg: Config, s: State, g: nat, k: nat)
    requires Safe(cfg, s) && Enabled(cfg, s, Lose(g, k))
    ensures Safe(cfg, Apply(cfg, s, Lose(g, k)))
  {
    FailSafe(cfg, s, g, k);
  }

  lemma RejectSafe(cfg: Config, s: State, g: nat, k: nat)
    requires Safe(cfg, s) && Enabled(cfg, s, Reject(g, k))
    ensures Safe(cfg, Apply(cfg, s, Reject(g, k)))
  {
    FailSafe(cfg, s, g, k);
  }

  lemma ReadSafe(cfg: Config, s: State, g: nat, k: nat, bytes: seq<Byte>)
    requires Safe(cfg, s) && Enabled(cfg, s, ReadOne(g, k, bytes))
    ensures Safe(cfg, Apply(cfg, s, ReadOne(g, k, bytes)))
  {
    StageKnown(cfg, s, g, k);
    ReadStep(cfg, s, g, k, bytes);
    TaskStepKeeps(cfg, s, Apply(cfg, s, ReadOne(g, k, bytes)), g, k);
  }

  lemma ReadStep(cfg: Config, s: State, g: nat, k: nat, bytes: seq<Byte>)
    requires Enabled(cfg, s, ReadOne(g, k, bytes)) && StageOk(s.gets[g], k) && Started(s.gets[g])
    ensures TaskStep(s, Apply(cfg, s, ReadOne(g, k, bytes)), g, k)
  {
  }

  lemma CopyBackSafe(cfg: Config, s: State, g: nat, k: nat)
    requires Safe(cfg, s) && Enabled(cfg, s, CopyBack(g, k))
    ensures Safe(cfg, Apply(cfg, s, CopyBack(g, k)))
  {
    StageKnown(cfg, s, g, k);
    CopyBackStep(cfg, s, g, k);
    TaskStepKeeps(cfg, s, Apply(cfg, s, CopyBack(g, k)), g, k);
  }

  lemma CopyBackStep(cfg: Config, s: State, g: nat, k: nat)
    requires Enabled(cfg, s, CopyBack(g, k)) && StageOk(s.gets[g], k) && Started(s.gets[g])
    ensures TaskStep(s, Apply(cfg, s, CopyBack(g, k)), g, k)
  {
  }

  /** Call `|s.gets|` joins to serve task `k` of `g`, and nothing else changes. */
  ghost predicate Joined(s: State, s': State, g: nat, k: nat)
  {
    && HasTask(s, g, k) && s' == s.(gets := s'.gets)
    && |s'.gets| == |s.gets| + 1
    && s'.gets[g] == SetStage(s.gets[g], k, Serving(|s.gets|))
    && (forall c :: 0 <= c < |s.gets| && c != g ==> s'.gets[c] == s.gets[c])
    && s'.gets[|s.gets|].parent == Some((g, k)) && s'.gets[|s.gets|].phase.Routing? && !s'.gets[|s.gets|].making
  }

  lemma DeliverJoins(cfg: Config, s: State, g: nat, k: nat)
    requires Enabled(cfg, s, Deliver(g, k))
    ensures var s' := Apply(cfg, s, Deliver(g, k));
            && Joined(s, s', g, k)
            && var y := s'.gets[|s.gets|];
               y.node == k && y.name == s.gets[g].name && y.handler == s.nodes[k].table[y.name]
  {
  }

  lemma DeliverSafe(cfg: Config, s: State, g: nat, k: nat)
    requires Safe(cfg, s) && Enabled(cfg, s, Deliver(g, k))
    ensures Safe(cfg, Apply(cfg, s, Deliver(g, k)))
  {
    DeliverGets(cfg, s, g, k);
    DeliverJoins(cfg, s, g, k);
    JoinedSafe(cfg, s, Apply(cfg, s, Deliver(g, k)), g, k);
  }

  lemma JoinedSafe(cfg: Config, s: State, s': State, g: nat, k: nat)
    requires Safe(cfg, s) && Joined(s, s', g, k)
    requires GetOk(cfg, s'.gets[g]) && GetOk(cfg, s'.gets[|s.gets|]) && Linked(cfg, s', |s.gets|)
    ensures Safe(cfg, s')
  {
    JoinedLinks(cfg, s, s', g, k);
    JoinedGets(cfg, s, s', g, k);
    NodesFrame(cfg, s, s');
    JoinedOwnership(s, s', g, k);
  }

  lemma JoinedLinks(cfg: Config, s: State, s': State, g: nat, k: nat)
    requires Joined(s, s', g, k) && Linked(cfg, s', |s.gets|)
    requires forall d :: 0 <= d < |s.gets| ==> Linked(cfg, s, d)
    ensures forall d :: 0 <= d < |s'.gets| ==> Linked(cfg, s', d)
  {
    forall d | 0 <= d < |s'.gets|
      ensures Linked(cfg, s', d)
    {
      if d < |s.gets| {
        JoinedLinked(cfg, s, s', g, k, d);
      }
    }
  }

  lemma JoinedGets(cfg: Config, s: State, s': State, g: nat, k: nat)
    requires Joined(s, s', g, k) && GetOk(cfg, s'.gets[g]) && GetOk(cfg, s'.gets[|s.gets|])
    requires forall d :: 0 <= d < |s.gets| ==> GetOk(cfg, s.gets[d])
    ensures forall d :: 0 <= d < |s'.gets| ==> GetOk(cfg, s'.gets[d])
  {
    forall d | 0 <= d < |s'.gets|
      ensures GetOk(cfg, s'.gets[d])
    {
      if d != g && d != |s.gets| {
        assert s'.gets[d] == s.gets[d];
      }
    }
  }

  lemma JoinedOwnership(s: State, s': State, g: nat, k: nat)
    requires Joined(s, s', g, k) && Ownership(s)
    ensures Ownership(s')
  {
    OwnershipKept(s, s');
  }

  lemma DeliverGets(cfg: Config, s: State, g: nat, k: nat)
    requires Safe(cfg, s) && Enabled(cfg, s, Deliver(g, k))
    ensures var s' := Apply(cfg, s, Deliver(g, k));
            && GetOk(cfg, s'.gets[g])
            && GetOk(cfg, s'.gets[|s.gets|])
            && Linked(cfg, s', |s.gets|)
  {
    DeliverJoins(cfg, s, g, k);
    StageKnown(cfg, s, g, k);
    SentOn(cfg, s.gets[g], k, |s.gets|);
    DeliverCall(cfg, s, g, k);
    ChildGetOk(cfg, s, g, k, Apply(cfg, s, Deliver(g, k)).gets[|s.gets|]);
    ChildLinked(cfg, s, Apply(cfg, s, Deliver(g, k)), g, k);
  }

  lemma DeliverCall(cfg: Config, s: State, g: nat, k: nat)
    requires Enabled(cfg, s, Deliver(g, k))
    ensures var x := s.gets[g];
            Apply(cfg, s, Deliver(g, k)).gets[|s.gets|] ==
            NewGet(k, x.name, s.nodes[k].table[x.name], Some((g, k)), ToWire(Entries(x.reqs, x.tasks[k].ix)))
  {
  }

  lemma SentOn(cfg: Config, x: Get, k: nat, c: nat)
    requires GetOk(cfg, x) && k < |x.tasks| && x.tasks[k].stage.Sent?
    ensures GetOk(cfg, SetStage(x, k, Serving(c)))
  {
    assert StageOk(x, k);
    TaskChange(cfg, x, SetStage(x, k, Serving(c)), k);
  }

  /** The call a node starts for another node's task. */
  lemma ChildGetOk(cfg: Config, s: State, g: nat, k: nat, y: Get)
    requires Safe(cfg, s) && HasTask(s, g, k) && TaskIndexed(s.gets[g], k)
    requires var x := s.gets[g];
             k < |s.nodes| && x.name in s.nodes[k].table &&
             y == NewGet(k, x.name, s.nodes[k].table[x.name], Some((g, k)), ToWire(Entries(x.reqs, x.tasks[k].ix)))
    ensures GetOk(cfg, y)
  {
    var x := s.gets[g];
    assert GetOk(cfg, x) && NodeOk(cfg, s, k);
    StartedIndices(cfg, x, k);
    SubAdmissible(x.reqs, x.tasks[k].ix);
  }

  lemma ChildLinked(cfg: Config, s: State, s': State, g: nat, k: nat)
    requires Safe(cfg, s) && HasTask(s, g, k) && TaskIndexed(s.gets[g], k) && Joined(s, s', g, k)
    requires Started(s.gets[g]) && !Local(s.gets[g], k) && k < |s.nodes| && s.gets[g].name in s.nodes[k].table
    requires var x := s.gets[g];
             s'.gets[|s.gets|] ==
             NewGet(k, x.name, s.nodes[k].table[x.name], Some((g, k)), ToWire(Entries(x.reqs, x.tasks[k].ix)))
    ensures Linked(cfg, s', |s.gets|)
  {
    assert NodeOk(cfg, s, k);
    assert TaskIndexed(s'.gets[g], k) && s'.gets[g].tasks[k].ix == s.gets[g].tasks[k].ix;
    assert ParentOk(s', |s.gets|);
  }

  lemma JoinedLinked(cfg: Config, s: State, s': State, g: nat, k: nat, d: nat)
    requires Joined(s, s', g, k) && d < |s.gets| && Linked(cfg, s, d)
    ensures Linked(cfg, s', d)
  {
    if s.gets[d].parent.Some? {
      assert ParentOk(s, d);
      var (p, j) := s.gets[d].parent.value;
      assert TaskIndexed(s'.gets[p], j);
    }
  }

  /** The requests of one task, sent on by themselves, are an admissible batch again. */
  lemma SubAdmissible(reqs: seq<SliceRequest>, ix: seq<nat>)
    requires Admissible(reqs) && Increasing(ix)
    requires forall j :: 0 <= j < |ix| ==> ix[j] < |reqs|
    ensures Admissible(ToWire(Entries(reqs, ix)))
  {
    var sub := ToWire(Entries(reqs, ix));
    SubPos(reqs, ix, |ix|);
    forall j | 0 <= j < |sub|
      ensures sub[j].len <= READ_BUFFER && sub[j].partition < TWO_31
    {
      NarrowFixed(reqs[ix[j]].len);
      NarrowFixed(reqs[ix[j]].partition);
    }
  }

  lemma {:induction false} SubPos(reqs: seq<SliceRequest>, ix: seq<nat>, c: nat)
    requires Admissible(reqs) && Increasing(ix) && c <= |ix|
    requires forall j :: 0 <= j < |ix| ==> ix[j] < |reqs|
    ensures var sub := ToWire(Entries(reqs, ix));
            Pos(sub, c) <= (if c < |ix| then Pos(reqs, ix[c]) else Total(reqs))
  {
    if c > 0 {
      SubPos(reqs, ix, c - 1);
      PosOrder(reqs, ix[c - 1], if c < |ix| then ix[c] else |reqs|);
    }
  }

  /** A call that has returned its answer gives its block back to the pool it came from. */
  function Answered(s: State, g: nat): (s': State)
    requires g < |s.gets| && PoolOf(s.gets[g]) < |s.free|
    requires s.gets[g].block < |s.blocks| && Total(s.gets[g].reqs) <= |s.blocks[s.gets[g].block]|
  {
    var x := s.gets[g];
    var s1 := SetGet(s, g, x.(phase := Returned(0, Gathered(s.blocks[x.block], x.reqs))));
    s1.(free := s1.free[PoolOf(x) := s1.free[PoolOf(x)] + [x.block]])
  }

  lemma AnsweredSafe(cfg: Config, s: State, g: nat)
    requires Safe(cfg, s) && Enabled(cfg, s, Succeed(g))
    ensures Safe(cfg, Answered(s, g))
  {
    var s1 := Answered(s, g);
    AnsweredGet(cfg, s, g);
    forall c | 0 <= c < |s1.gets|
      ensures Linked(cfg, s1, c) && GetOk(cfg, s1.gets[c])
    {
      ReplaceLinked(cfg, s, s1, g, c);
    }
    NodesFrame(cfg, s, s1);
    SucceedOwnership(s, g);
  }

  lemma AnsweredGet(cfg: Config, s: State, g: nat)
    requires Safe(cfg, s) && Enabled(cfg, s, Succeed(g))
    ensures GetOk(cfg, Answered(s, g).gets[g]) && Evolves(s.gets[g], Answered(s, g).gets[g])
  {
    var x, y := s.gets[g], Answered(s, g).gets[g];
    assert y == x.(phase := y.phase);
    GatheredLengths(s.blocks[x.block], x.reqs);
    ReturnGetOk(cfg, x, y);
  }

  lemma SucceedSafe(cfg: Config, s: State, g: nat)
    requires Safe(cfg, s) && Enabled(cfg, s, Succeed(g))
    ensures Safe(cfg, Apply(cfg, s, Succeed(g)))
  {
    AnsweredSafe(cfg, s, g);
    var s1 := Answered(s, g);
    ReplySafe(cfg, s1, g, s1.gets[g].phase.data);
  }

  lemma GatheredLengths(block: seq<Byte>, reqs: seq<SliceRequest>)
    requires Total(reqs) <= |block|
    ensures |Gathered(block, reqs)| == |reqs|
    ensures forall i :: 0 <= i < |reqs| ==> |Gathered(block, reqs)[i]| == reqs[i].len
  {
    forall i | 0 <= i < |reqs|
      ensures |Gathered(block, reqs)[i]| == reqs[i].len
    {
      PosInside(reqs, i);
    }
  }

  lemma ReturnGetOk(cfg: Config, x: Get, y: Get)
    requires GetOk(cfg, x) && x.phase.Waiting? && y.phase.Returned?
    requires y == x.(phase := y.phase) && ReturnOk(y)
    ensures GetOk(cfg, y)
  {
    forall k | 0 <= k < |y.tasks|
      ensures StageOk(y, k)
    {
      StageFrame(x, y, k);
    }
  }

  lemma SucceedOwnership(s: State, g: nat)
    requires Ownership(s) && g < |s.gets| && s.gets[g].phase.Waiting?
    requires PoolOf(s.gets[g]) < |s.free| && s.gets[g].block < |s.blocks|
    requires Total(s.gets[g].reqs) <= |s.blocks[s.gets[g].block]|
    ensures Ownership(Answered(s, g))
  {
    var s' := Answered(s, g);
    var pool := PoolOf(s.gets[g]);
    forall p: nat, a: nat | InPool(s', p, a)
      ensures || (InPool(s, p, a) && s'.free[p][a] == s.free[p][a])
              || (p == pool && a == |s.free[pool]| && s'.free[p][a] == s.gets[g].block)
    {
    }
  }

  lemma ReplySafe(cfg: Config, s: State, c: nat, data: seq<seq<Byte>>)
    requires Safe(cfg, s) && c < |s.gets|
    requires data == [] || (|data| == |s.gets[c].reqs| &&
                            forall i :: 0 <= i < |data| ==> |data[i]| == s.gets[c].reqs[i].len)
    ensures Safe(cfg, Reply(s, c, data))
  {
    if s.gets[c].parent.Some? {
      var (g, k) := s.gets[c].parent.value;
      if HasTask(s, g, k) && s.gets[g].tasks[k].stage == Serving(c) {
        assert ParentOk(s, c) by {
          assert Linked(cfg, s, c);
        }
        StageKnown(cfg, s, g, k);
        if data != [] {
          ReplyAnswers(cfg, s, c, data);
        }
        RepliedStep(s, g, k, data);
        TaskStepKeeps(cfg, s, SetGet(s, g, SetStage(s.gets[g], k, Replied(data, 0))), g, k);
      }
    }
  }

  lemma RepliedStep(s: State, g: nat, k: nat, data: seq<seq<Byte>>)
    requires HasTask(s, g, k) && StageOk(s.gets[g], k) && Started(s.gets[g]) && s.gets[g].tasks[k].stage.Serving?
    requires data == [] || Answers(s.gets[g], s.gets[g].tasks[k].ix, data)
    ensures TaskStep(s, SetGet(s, g, SetStage(s.gets[g], k, Replied(data, 0))), g, k)
  {
  }

  lemma ReplyAnswers(cfg: Config, s: State, c: nat, data: seq<seq<Byte>>)
    requires c < |s.gets| && s.gets[c].parent.Some? && ParentOk(s, c)
    requires GetOk(cfg, s.gets[s.gets[c].parent.value.0])
    requires |data| == |s.gets[c].reqs| && forall i :: 0 <= i < |data| ==> |data[i]| == s.gets[c].reqs[i].len
    ensures var (g, k) := s.gets[c].parent.value;
            Answers(s.gets[g], s.gets[g].tasks[k].ix, data)
  {
    var (g, k) := s.gets[c].parent.value;
    var x := s.gets[g];
    forall j | 0 <= j < |x.tasks[k].ix|
      ensures |data[j]| == x.reqs[x.tasks[k].ix[j]].len
    {
      NarrowFixed(x.reqs[x.tasks[k].ix[j]].len);
    }
  }

  /** Only remote tasks can fail, so a call made for another node never does. */
  lemma OnlyClientsFail(cfg: Config, x: Get)
    requires GetOk(cfg, x) && x.faild
    ensures x.parent.None?
  {
    var k :| 0 <= k < |x.tasks| && x.tasks[k].stage.Failed?;
    assert StageOk(x, k);
  }

  lemma GiveUpSafe(cfg: Config, s: State, g: nat)
    requires Safe(cfg, s) && Enabled(cfg, s, GiveUp(g))
    ensures Safe(cfg, Apply(cfg, s, GiveUp(g)))
  {
    var s' := Apply(cfg, s, GiveUp(g));
    OnlyClientsFail(cfg, s.gets[g]);
    ReturnGetOk(cfg, s.gets[g], s'.gets[g]);
    ReplaceSafe(cfg, s, s', g);
  }

  // ----- switching, unloading and destroying handlers

  lemma StoreRouteSafe(cfg: Config, s: State, node: nat, name: Name)
    requires Safe(cfg, s) && Enabled(cfg, s, StoreRoute(node, name))
    ensures Safe(cfg, Apply(cfg, s, StoreRoute(node, name)))
  {
    var s' := Apply(cfg, s, StoreRoute(node, name));
    Split(|cfg.files[name]|, cfg.nodes);
    forall i | 0 <= i < |s'.nodes|
      ensures NodeOk(cfg, s', i)
    {
      assert NodeOk(cfg, s, i);
    }
    GetsFrame(cfg, s, s');
  }

  /** Handlers only lose what no active call needs, so every call stays linked. */
  lemma GetsFrame(cfg: Config, s: State, s': State)
    requires Safe(cfg, s) && s'.gets == s.gets && s'.free == s.free && s'.blocks == s.blocks
    requires |s.handlers| <= |s'.handlers|
    requires forall h :: 0 <= h < |s.handlers| ==>
               && s'.handlers[h].node == s.handlers[h].node && s'.handlers[h].name == s.handlers[h].name
               && s'.handlers[h].gone == s.handlers[h].gone
               && (s'.handlers[h].loaded == s.handlers[h].loaded || Unheld(s, h))
    ensures forall g :: 0 <= g < |s'.gets| ==> Linked(cfg, s', g)
    ensures Ownership(s')
  {
    forall g | 0 <= g < |s'.gets|
      ensures Linked(cfg, s', g)
    {
      assert Linked(cfg, s, g);
      if s.gets[g].parent.Some? {
        assert ParentOk(s, g);
      }
    }
    OwnershipKept(s, s');
  }

  lemma PublishSafe(cfg: Config, s: State, node: nat, name: Name)
    requires Safe(cfg, s) && Enabled(cfg, s, Publish(node, name))
    ensures Safe(cfg, Apply(cfg, s, Publish(node, name)))
  {
    var s' := Apply(cfg, s, Publish(node, name));
    forall i | 0 <= i < |s'.nodes|
      ensures NodeOk(cfg, s', i)
    {
      assert NodeOk(cfg, s, i);
    }
    GetsFrame(cfg, s, s');
  }

  lemma CleanupSafe(cfg: Config, s: State, node: nat)
    requires Safe(cfg, s) && Enabled(cfg, s, Cleanup(node))
    ensures Safe(cfg, Apply(cfg, s, Cleanup(node)))
  {
    var s' := Apply(cfg, s, Cleanup(node));
    forall i | 0 <= i < |s'.nodes|
      ensures NodeOk(cfg, s', i)
    {
      assert NodeOk(cfg, s, i);
      if s.nodes[i].current.Some? && i != node {
        assert NodeOk(cfg, s, node);
      }
    }
    GetsFrame(cfg, s, s');
  }

  /** Some queued tasks of a call were dropped. */
  ghost predicate Dropping(x: Get, y: Get)
  {
    && y == x.(tasks := y.tasks) && |y.tasks| == |x.tasks|
    && forall k :: 0 <= k < |x.tasks| ==>
         y.tasks[k] == x.tasks[k] || (x.tasks[k].stage.Queued? && y.tasks[k] == x.tasks[k].(stage := Dropped))
  }

  lemma DropIs(x: Get, h: nat)
    ensures Dropping(x, DropQueued(x, h)) && (x.handler != h ==> DropQueued(x, h) == x)
  {
  }

  lemma DropFlags(x: Get, y: Get)
    requires Dropping(x, y)
    ensures DoneSum(y.tasks) == DoneSum(x.tasks)
    ensures HasFailed(x) ==> HasFailed(y)
    ensures HasFinished(y) ==> HasFinished(x)
  {
    DoneSumSame(x.tasks, y.tasks);
    if HasFailed(x) {
      var k :| 0 <= k < |x.tasks| && x.tasks[k].stage.Failed?;
      assert y.tasks[k].stage.Failed?;
    }
    if HasFinished(y) {
      var k :| 0 <= k < |y.tasks| && y.tasks[k].stage.Finished?;
      assert x.tasks[k].stage.Finished?;
    }
  }

  lemma DropStage(x: Get, y: Get, k: nat)
    requires x.phase.Returned? && Dropping(x, y) && k < |x.tasks| && StageOk(x, k)
    ensures StageOk(y, k)
  {
    if y.tasks[k] == x.tasks[k] {
      StageFrame(x, y, k);
    }
  }

  lemma DropOk(cfg: Config, x: Get, y: Get)
    requires GetOk(cfg, x) && x.phase.Returned? && Dropping(x, y)
    ensures GetOk(cfg, y)
  {
    DropFlags(x, y);
    forall k | 0 <= k < |y.tasks|
      ensures StageOk(y, k) && y.tasks[k].ix == x.tasks[k].ix
    {
      DropStage(x, y, k);
    }
  }

  lemma DropGetOk(cfg: Config, x: Get, h: nat)
    requires GetOk(cfg, x) && (x.handler == h ==> x.phase.Returned?)
    ensures GetOk(cfg, DropQueued(x, h)) && Evolves(x, DropQueued(x, h))
  {
    DropIs(x, h);
    if x.handler == h {
      DropOk(cfg, x, DropQueued(x, h));
    }
  }

  lemma DestroySafe(cfg: Config, s: State, h: nat)
    requires Safe(cfg, s) && Enabled(cfg, s, Destroy(h))
    ensures Safe(cfg, Apply(cfg, s, Destroy(h)))
  {
    var s' := Apply(cfg, s, Destroy(h));
    DestroyGets(cfg, s, h);
    forall g | 0 <= g < |s'.gets|
      ensures Linked(cfg, s', g)
    {
      DestroyLinked(cfg, s, s', h, g);
    }
    DestroyNodes(cfg, s, h);
    OwnershipKept(s, s');
  }

  lemma DestroyGets(cfg: Config, s: State, h: nat)
    requires Unheld(s, h) && forall g :: 0 <= g < |s.gets| ==> GetOk(cfg, s.gets[g])
    ensures forall g :: 0 <= g < |s.gets| ==>
              GetOk(cfg, DropQueued(s.gets[g], h)) && Evolves(s.gets[g], DropQueued(s.gets[g], h))
  {
    forall g | 0 <= g < |s.gets|
      ensures GetOk(cfg, DropQueued(s.gets[g], h)) && Evolves(s.gets[g], DropQueued(s.gets[g], h))
    {
      DropGetOk(cfg, s.gets[g], h);
    }
  }

  lemma DestroyNodes(cfg: Config, s: State, h: nat)
    requires Enabled(cfg, s, Destroy(h)) && forall i :: 0 <= i < |s.nodes| ==> NodeOk(cfg, s, i)
    ensures var s' := Apply(cfg, s, Destroy(h)); forall i :: 0 <= i < |s'.nodes| ==> NodeOk(cfg, s', i)
  {
    var s' := Apply(cfg, s, Destroy(h));
    forall i | 0 <= i < |s'.nodes|
      ensures NodeOk(cfg, s', i)
    {
      assert NodeOk(cfg, s, i);
    }
  }

  lemma DestroyLinked(cfg: Config, s: State, s': State, h: nat, g: nat)
    requires Unheld(s, h) && |s'.gets| == |s.gets| && g < |s.gets| && |s'.handlers| == |s.handlers|
    requires forall x :: 0 <= x < |s.handlers| && x != h ==> s'.handlers[x] == s.handlers[x]
    requires h < |s.handlers| && s'.handlers[h].node == s.handlers[h].node && s'.handlers[h].name == s.handlers[h].name
    requires forall c :: 0 <= c < |s.gets| ==> Evolves(s.gets[c], s'.gets[c])
    requires Linked(cfg, s, g)
    ensures Linked(cfg, s', g)
  {
    if s.gets[g].parent.Some? {
      assert ParentOk(s, g);
      var (p, k) := s.gets[g].parent.value;
      assert TaskIndexed(s'.gets[p], k);
    }
  }

  // ----- all runs

  /** The steps that move tasks about. */
  predicate MovesTask(step: Step)
  {
    step.Pop? || step.ReadOne? || step.Complete? || step.Deliver? || step.Lose? || step.Reject? || step.CopyBack?
  }

  lemma TaskStepSafe(cfg: Config, s: State, step: Step)
    requires Safe(cfg, s) && Enabled(cfg, s, step) && MovesTask(step)
    ensures Safe(cfg, Apply(cfg, s, step))
  {
    match step
    case Pop(g, k) => PopSafe(cfg, s, g, k);
    case ReadOne(g, k, bytes) => ReadSafe(cfg, s, g, k, bytes);
    case Complete(g, k) => CompleteSafe(cfg, s, g, k);
    case Deliver(g, k) => DeliverSafe(cfg, s, g, k);
    case Lose(g, k) => LoseSafe(cfg, s, g, k);
    case Reject(g, k) => RejectSafe(cfg, s, g, k);
    case CopyBack(g, k) => CopyBackSafe(cfg, s, g, k);
  }

  /** The steps that take a call up to the moment it waits. */
  predicate MovesStart(step: Step)
  {
    step.RouteOne? || step.Unlock? || step.Allocate? || step.Push?
  }

  lemma StartStepSafe(cfg: Config, s: State, step: Step)
    requires Safe(cfg, s) && Enabled(cfg, s, step) && MovesStart(step)
    ensures Safe(cfg, Apply(cfg, s, step))
  {
    match step
    case RouteOne(g) => RouteSafe(cfg, s, g);
    case Unlock(g) => UnlockSafe(cfg, s, g);
    case Allocate(g, newBlock) => AllocateSafe(cfg, s, g, newBlock);
    case Push(g) => PushSafe(cfg, s, g);
  }

  /** The steps that install, unload and destroy models. */
  predicate Switches(step: Step)
  {
    step.StoreRoute? || step.Publish? || step.Cleanup? || step.Destroy?
  }

  lemma SwitchSafe(cfg: Config, s: State, step: Step)
    requires Safe(cfg, s) && Enabled(cfg, s, step) && Switches(step)
    ensures Safe(cfg, Apply(cfg, s, step))
  {
    match step
    case StoreRoute(node, name) => StoreRouteSafe(cfg, s, node, name);
    case Publish(node, name) => PublishSafe(cfg, s, node, name);
    case Cleanup(node) => CleanupSafe(cfg, s, node);
    case Destroy(h) => DestroySafe(cfg, s, h);
  }

  lemma StepSafe(cfg: Config, s: State, step: Step)
    requires Safe(cfg, s) && Enabled(cfg, s, step)
    ensures Safe(cfg, Apply(cfg, s, step))
  {
    if MovesTask(step) {
      TaskStepSafe(cfg, s, step);
    } else if MovesStart(step) {
      StartStepSafe(cfg, s, step);
    } else if Switches(step) {
      SwitchSafe(cfg, s, step);
    } else if step.Capture? {
      CaptureSafe(cfg, s, step.node, step.reqs);
    } else if step.Succeed? {
      SucceedSafe(cfg, s, step.g);
    } else {
      GiveUpSafe(cfg, s, step.g);
    }
  }

  /** Every reachable state is safe, whatever the schedule. */
  lemma {:induction false} RunsAreSafe(cfg: Config, steps: seq<Step>)
    requires Legal(cfg, steps)
    ensures Safe(cfg, Final(cfg, steps))
  {
    if steps != [] {
      var n := |steps| - 1;
      RunsAreSafe(cfg, steps[..n]);
      StepSafe(cfg, Final(cfg, steps[..n]), steps[n]);
    }
  }
}
