/**
 How calls come to their end: whatever has happened so far, a call can be driven to its end by steps
 that only work for calls, unless it waits for a block of a pool that failed calls hold for good.
 */
module ClusterProgress {
  import opened Bytes
  import opened Requests
  import opened Sharding
  import opened Cluster
  import opened ClusterSafety
  import opened ClusterCalls
  import opened ClusterPools
  import opened ClusterWork
  import opened ClusterFlow
  import opened Sums

  // ----- where a call's requests go

  ghost predicate Client(s: State, g: nat)
    requires g < |s.gets|
  {
    s.gets[g].parent.None? && Active(s.gets[g])
  }

  /** Node `i` sends requests for slice `p` to node `j`. */
  predicate Sends(cfg: Config, s: State, i: nat, p: nat, j: nat)
  {
    i < |s.nodes| && s.nodes[i].perNode > 0 && cfg.nodes > 0 && NodeForSlice(s.nodes[i].perNode, cfg.nodes, p) == j
  }

  /** Request `r` of a client's call has been or would now be sent to node `j`. */
  predicate GoesTo(cfg: Config, s: State, x: Get, r: nat, j: nat)
  {
    r < |x.reqs| && (if r < |x.route| then x.route[r] == j else Sends(cfg, s, x.node, x.reqs[r].partition, j))
  }

  /** Each request of a client's running call goes to its own node or to one that lists the call's model. */
  ghost predicate Reaching(cfg: Config, s: State, g: nat)
    requires g < |s.gets|
  {
    forall r: nat, j: nat :: GoesTo(cfg, s, s.gets[g], r, j) && j != s.gets[g].node ==>
      j < |s.nodes| && s.gets[g].name in s.nodes[j].table
  }

  /** The requests of the running clients that take their blocks from pool `p` go to nodes that list their models. */
  ghost predicate PoolReach(cfg: Config, s: State, p: nat)
  {
    forall g :: 0 <= g < |s.gets| && Client(s, g) && PoolOf(s.gets[g]) == p ==> Reaching(cfg, s, g)
  }

  /** Every node a task of this call is on the wire to lists the call's model. */
  ghost predicate CanDeliver(s: State, g: nat)
    requires g < |s.gets|
  {
    forall k :: 0 <= k < |s.gets[g].tasks| && s.gets[g].tasks[k].stage.Sent? ==>
      k < |s.nodes| && s.gets[g].name in s.nodes[k].table
  }

  lemma ReachingDelivers(cfg: Config, s: State, g: nat)
    requires Safe(cfg, s) && g < |s.gets| && Client(s, g) && Reaching(cfg, s, g)
    ensures CanDeliver(s, g)
  {
    var x := s.gets[g];
    forall k | 0 <= k < |x.tasks| && x.tasks[k].stage.Sent?
      ensures k < |s.nodes| && x.name in s.nodes[k].table
    {
      assert GetOk(cfg, x) && StageOk(x, k);
      StartedIndices(cfg, x, k);
      var r := x.tasks[k].ix[0];
      IndicesMember(x.route, k, r);
      assert GoesTo(cfg, s, x, r, k);
    }
  }

  /** A client's call that waits for a block of a drained pool. */
  ghost predicate Starved(s: State, g: nat)
    requires g < |s.gets|
  {
    s.gets[g].parent.None? && s.gets[g].phase.Routing? && Drained(s, PoolOf(s.gets[g]))
  }

  // ----- what workers may copy

  /** A loaded copy of `m` on node `node` does not have the slice of the trap. */
  predicate Open(cfg: Config, v: View, m: Name, node: nat)
  {
    v.trap.Some? && v.trap.value.name == m && v.trap.value.node == node ==>
      !HasSlice(cfg, m, node, v.trap.value.partition)
  }

  /** A lookup of `m` on node `k` finds a loaded handler. */
  ghost predicate Finds(s: State, k: nat, m: Name)
    requires k < |s.nodes|
  {
    m in s.nodes[k].table && s.nodes[k].table[m] < |s.handlers| && s.handlers[s.nodes[k].table[m]].loaded
  }

  ghost predicate CallCompatible(cfg: Config, v: View, s: State, g: nat)
    requires g < |s.gets|
  {
    Followed(v, s, g) ==>
      && s.gets[g].handler < |s.handlers|
      && (s.handlers[s.gets[g].handler].loaded ==> Open(cfg, v, s.gets[g].name, s.gets[g].node))
      && (forall k :: 0 <= k < |s.nodes| && Finds(s, k, s.gets[g].name) ==> Open(cfg, v, s.gets[g].name, k))
  }

  /** No followed call holds, or can look up, a loaded copy with the slice of the trap. */
  ghost predicate Compatible(cfg: Config, v: View, s: State)
  {
    forall g :: 0 <= g < |s.gets| ==> CallCompatible(cfg, v, s, g)
  }

  /** The step works for a call, loses nothing and keeps the view. */
  ghost predicate Advances(cfg: Config, v: View, s: State, step: Step)
  {
    && Enabled(cfg, s, step) && Actor(step).Some? && !step.Lose? && !step.Reject?
    && Suits(cfg, v, s, step)
  }

  /** Bytes that the view expects, and the slices too if they are loaded. */
  lemma SomeBytes(cfg: Config, v: View, m: Name, node: nat, req: SliceRequest, loaded: bool)
    returns (bytes: seq<Byte>)
    requires loaded ==> Open(cfg, v, m, node)
    ensures Wants(cfg, v, m, node, req, bytes)
    ensures loaded ==> Right(cfg, m, node, req, bytes)
  {
    if Inside(cfg, m, req) {
      bytes := FileBytes(cfg, m, req);
      if v.trap.Some? && Trapped(v.trap.value, m, node, req) {
        bytes := Flipped(bytes);
      }
    } else {
      bytes := seq(req.len, i => 0);
    }
  }

  lemma SlotFits(cfg: Config, s: State, g: nat, k: nat, c: nat)
    requires Safe(cfg, s) && HasTask(s, g, k) && c < |s.gets[g].tasks[k].ix|
    requires s.gets[g].tasks[k].stage.Running? || s.gets[g].tasks[k].stage.Replied?
    ensures TaskIndexed(s.gets[g], k)
    ensures var i := s.gets[g].tasks[k].ix[c]; CanWrite(s, g, i, s.gets[g].reqs[i].len)
  {
    var x := s.gets[g];
    assert GetOk(cfg, x);
    StartedIndices(cfg, x, k);
    WriterHolds(cfg, x, k);
    PosInside(x.reqs, x.tasks[k].ix[c]);
  }

  lemma ReadBytes(cfg: Config, v: View, s: State, g: nat, k: nat) returns (bytes: seq<Byte>)
    requires Safe(cfg, s) && Compatible(cfg, v, s) && HasTask(s, g, k) && s.gets[g].tasks[k].stage.Running?
    requires s.gets[g].tasks[k].stage.done < |s.gets[g].tasks[k].ix| && TaskIndexed(s.gets[g], k)
    ensures s.gets[g].handler < |s.handlers|
    ensures var x := s.gets[g];
            var i := x.tasks[k].ix[x.tasks[k].stage.done];
            var h := s.handlers[x.handler];
            && |bytes| == x.reqs[i].len
            && (h.loaded ==> Right(cfg, h.name, h.node, x.reqs[i], bytes))
            && (Followed(v, s, g) ==> EntryRight(cfg, v, x, i, bytes))
  {
    var x := s.gets[g];
    var d := x.tasks[k].stage.done;
    assert Linked(cfg, s, g) && GetOk(cfg, x) && StageOk(x, k) && CallCompatible(cfg, v, s, g);
    ServerOfEntry(cfg, x, k, d);
    var loaded := s.handlers[x.handler].loaded;
    var any := View(ClientsOf(0), None);
    bytes := SomeBytes(cfg, if Followed(v, s, g) then v else any, x.name, x.node, x.reqs[x.tasks[k].ix[d]], loaded);
  }

  lemma MoveRead(cfg: Config, v: View, s: State, g: nat, k: nat) returns (step: Step)
    requires Safe(cfg, s) && Compatible(cfg, v, s) && HasTask(s, g, k) && s.gets[g].tasks[k].stage.Running?
    ensures Advances(cfg, v, s, step) && Actor(step) == Some(g)
  {
    var t := s.gets[g].tasks[k];
    StageKnown(cfg, s, g, k);
    if t.stage.done == |t.ix| {
      step := Complete(g, k);
    } else {
      SlotFits(cfg, s, g, k, t.stage.done);
      var bytes := ReadBytes(cfg, v, s, g, k);
      step := ReadOne(g, k, bytes);
    }
  }

  lemma MoveReply(cfg: Config, v: View, s: State, g: nat, k: nat) returns (step: Step)
    requires Safe(cfg, s) && Live(s) && HasTask(s, g, k) && s.gets[g].tasks[k].stage.Replied?
    ensures Advances(cfg, v, s, step) && Actor(step) == Some(g)
  {
    var t := s.gets[g].tasks[k];
    StageKnown(cfg, s, g, k);
    assert TaskLive(s, t) by {
      assert CallLive(s, s.gets[g]);
    }
    if t.stage.done == |t.ix| {
      step := Complete(g, k);
    } else {
      SlotFits(cfg, s, g, k, t.stage.done);
      step := CopyBack(g, k);
    }
  }

  lemma MovePop(cfg: Config, v: View, s: State, g: nat, k: nat)
    requires Safe(cfg, s) && HasTask(s, g, k) && Active(s.gets[g]) && s.gets[g].tasks[k].stage.Queued?
    ensures Advances(cfg, v, s, Pop(g, k))
  {
    assert Linked(cfg, s, g);
  }

  lemma MoveSent(cfg: Config, v: View, s: State, g: nat, k: nat)
    requires Safe(cfg, s) && HasTask(s, g, k) && s.gets[g].tasks[k].stage.Sent? && CanDeliver(s, g)
    ensures Advances(cfg, v, s, Deliver(g, k))
  {
    assert GetOk(cfg, s.gets[g]);
    StartedIndices(cfg, s.gets[g], k);
  }

  lemma MoveTask(cfg: Config, v: View, s: State, g: nat, k: nat) returns (step: Step)
    requires Safe(cfg, s) && Live(s) && Compatible(cfg, v, s)
    requires HasTask(s, g, k) && Active(s.gets[g]) && CanDeliver(s, g)
    requires Pending(s.gets[g].tasks[k]) && !s.gets[g].tasks[k].stage.Serving?
    ensures Advances(cfg, v, s, step) && Actor(step) == Some(g)
  {
    var t := s.gets[g].tasks[k];
    if t.stage.Queued? {
      MovePop(cfg, v, s, g, k);
      step := Pop(g, k);
    } else if t.stage.Sent? {
      MoveSent(cfg, v, s, g, k);
      step := Deliver(g, k);
    } else if t.stage.Running? {
      step := MoveRead(cfg, v, s, g, k);
    } else {
      step := MoveReply(cfg, v, s, g, k);
    }
  }

  lemma MoveEnd(cfg: Config, v: View, s: State, g: nat) returns (step: Step)
    requires Safe(cfg, s) && g < |s.gets| && s.gets[g].phase.Waiting? && (s.gets[g].finish || s.gets[g].faild)
    ensures Advances(cfg, v, s, step) && Actor(step) == Some(g)
  {
    if s.gets[g].faild {
      step := GiveUp(g);
    } else {
      assert Admissible(s.gets[g].reqs) && PoolOf(s.gets[g]) < |s.free| by {
        assert GetOk(cfg, s.gets[g]);
      }
      assert Holds(s.gets[g]);
      step := Succeed(g);
    }
  }

  /** What holds in every reachable state. */
  ghost predicate Sound(cfg: Config, s: State)
  {
    Safe(cfg, s) && Live(s) && PoolsExact(s)
  }

  lemma RunsAreSound(cfg: Config, steps: seq<Step>)
    requires Legal(cfg, steps)
    ensures Sound(cfg, Final(cfg, steps))
  {
    RunsAreSafe(cfg, steps);
    RunsAreLive(cfg, steps);
    RunsAreExact(cfg, steps);
  }

  lemma StepSound(cfg: Config, s: State, step: Step)
    requires Sound(cfg, s) && Enabled(cfg, s, step)
    ensures Sound(cfg, Apply(cfg, s, step))
  {
    StepSafe(cfg, s, step);
    StepLive(cfg, s, step);
    StepExact(cfg, s, step);
  }

  lemma NoTrapCompatible(cfg: Config, v: View, s: State)
    requires Sound(cfg, s) && v.trap.None?
    ensures Compatible(cfg, v, s)
  {
    forall g | 0 <= g < |s.gets|
      ensures CallCompatible(cfg, v, s, g)
    {
      assert Linked(cfg, s, g);
    }
  }

  // ----- some step can always be taken

  /** A state from which the calls of pool `p` can be driven on, keeping to the view. */
  ghost predicate Driven(cfg: Config, v: View, s: State, p: nat)
  {
    Sound(cfg, s) && Compatible(cfg, v, s) && PoolReach(cfg, s, p)
  }

  /** A call that holds a block can be moved on itself, unless the task it waits for is with another node. */
  lemma MoveStarted(cfg: Config, v: View, s: State, g: nat) returns (step: Option<Step>, k: nat)
    requires Sound(cfg, s) && Compatible(cfg, v, s) && g < |s.gets|
    requires Active(s.gets[g]) && Started(s.gets[g]) && CanDeliver(s, g)
    ensures step.Some? ==> Advances(cfg, v, s, step.value)
    ensures step.None? ==> HasTask(s, g, k) && s.gets[g].tasks[k].stage.Serving?
  {
    var x := s.gets[g];
    k := 0;
    if x.phase.Pushing? {
      assert GetOk(cfg, x);
      step := Some(Push(g));
    } else if x.finish || x.faild {
      var end := MoveEnd(cfg, v, s, g);
      step := Some(end);
    } else {
      k := WaitingPending(cfg, s, g);
      if x.tasks[k].stage.Serving? {
        step := None;
      } else {
        var move := MoveTask(cfg, v, s, g, k);
        step := Some(move);
      }
    }
  }

  /** A call made for another node has no tasks on other nodes. */
  lemma ChildLocal(cfg: Config, s: State, c: nat)
    requires Safe(cfg, s) && c < |s.gets| && s.gets[c].parent.Some?
    ensures CanDeliver(s, c) && forall k :: 0 <= k < |s.gets[c].tasks| ==> !s.gets[c].tasks[k].stage.Serving?
  {
    forall k | 0 <= k < |s.gets[c].tasks|
      ensures !s.gets[c].tasks[k].stage.Sent? && !s.gets[c].tasks[k].stage.Serving?
    {
      StageKnown(cfg, s, c, k);
    }
  }

  lemma MoveStartedChild(cfg: Config, v: View, s: State, c: nat) returns (step: Step)
    requires Sound(cfg, s) && Compatible(cfg, v, s) && c < |s.gets|
    requires Active(s.gets[c]) && Started(s.gets[c]) && s.gets[c].parent.Some?
    ensures Advances(cfg, v, s, step)
  {
    ChildLocal(cfg, s, c);
    var move, k := MoveStarted(cfg, v, s, c);
    step := move.value;
  }

  lemma MoveRoute(cfg: Config, v: View, s: State, g: nat) returns (step: Step)
    requires Safe(cfg, s) && Live(s) && g < |s.gets| && s.gets[g].phase.Routing?
    requires |s.gets[g].route| < |s.gets[g].reqs|
    ensures Advances(cfg, v, s, step)
  {
    var x := s.gets[g];
    assert GetOk(cfg, x) && CallLive(s, x) && NodeOk(cfg, s, x.node);
    step := RouteOne(g);
  }

  /** A call that is routed, or making a block outside the pool's lock, goes on by itself. */
  lemma MoveMaking(cfg: Config, v: View, s: State, g: nat) returns (step: Step)
    requires Sound(cfg, s) && g < |s.gets| && s.gets[g].phase.Routing?
    requires s.gets[g].making || |s.gets[g].route| < |s.gets[g].reqs|
    ensures Advances(cfg, v, s, step)
  {
    assert GetOk(cfg, s.gets[g]);
    if |s.gets[g].route| < |s.gets[g].reqs| {
      step := MoveRoute(cfg, v, s, g);
    } else {
      step := Allocate(g, Some(seq(BLOCK_SIZE, i => 0)));
    }
  }

  /**
   A call not started yet is routed on, gets a block or makes one, unless its pool is at its limit with no
   block free; then a call that makes one takes it, or `h` holds one and has not failed.
   */
  lemma MoveStart(cfg: Config, v: View, s: State, g: nat) returns (step: Option<Step>, h: nat)
    requires Sound(cfg, s) && g < |s.gets| && s.gets[g].phase.Routing? && !Drained(s, PoolOf(s.gets[g]))
    ensures step.Some? ==> Advances(cfg, v, s, step.value)
    ensures step.None? ==> h < |s.gets| && Holding(s.gets[h], PoolOf(s.gets[g])) && !s.gets[h].faild
  {
    var p := PoolOf(s.gets[g]);
    assert GetOk(cfg, s.gets[g]);
    h := 0;
    if |s.gets[g].route| < |s.gets[g].reqs| || s.gets[g].making {
      var move := MoveMaking(cfg, v, s, g);
      step := Some(move);
    } else if s.free[p] != [] {
      step := Some(Allocate(g, None));
    } else if s.made[p] < POOL_BLOCKS {
      step := Some(Unlock(g));
    } else {
      step, h := MoveHolder(cfg, v, s, p);
    }
  }

  lemma MoveHolder(cfg: Config, v: View, s: State, p: nat) returns (step: Option<Step>, h: nat)
    requires Sound(cfg, s) && p < |s.free| && s.free[p] == [] && s.made[p] >= POOL_BLOCKS && !Drained(s, p)
    ensures step.Some? ==> Advances(cfg, v, s, step.value)
    ensures step.None? ==> h < |s.gets| && Holding(s.gets[h], p) && !s.gets[h].faild
  {
    h := LivingHolder(s, p);
    step := None;
    if InWindow(s.gets[h], p) {
      var move := MoveMaking(cfg, v, s, h);
      step := Some(move);
    }
  }

  /** A call that holds a block and has not failed is still running. */
  lemma HolderRuns(cfg: Config, s: State, h: nat)
    requires Safe(cfg, s) && h < |s.gets| && Holds(s.gets[h]) && !s.gets[h].faild
    ensures Active(s.gets[h]) && Started(s.gets[h])
  {
    assert GetOk(cfg, s.gets[h]);
  }

  lemma InternalNeverDrained(cfg: Config, s: State, p: nat)
    requires Safe(cfg, s) && p % 2 == 1
    ensures !Drained(s, p)
  {
    var marks := FailMarks(s.gets, p);
    forall g | 0 <= g < |marks|
      ensures marks[g] == 0
    {
      if s.gets[g].faild {
        assert GetOk(cfg, s.gets[g]);
        OnlyClientsFail(cfg, s.gets[g]);
      }
    }
    SumZero(marks);
  }

  /** Calls made for other nodes never fail, so their pools are never drained and they always move on. */
  lemma MoveChild(cfg: Config, v: View, s: State, c: nat) returns (step: Step)
    requires Sound(cfg, s) && Compatible(cfg, v, s) && c < |s.gets| && Active(s.gets[c]) && s.gets[c].parent.Some?
    ensures Advances(cfg, v, s, step)
  {
    if Started(s.gets[c]) {
      step := MoveStartedChild(cfg, v, s, c);
    } else {
      InternalNeverDrained(cfg, s, PoolOf(s.gets[c]));
      var move, h := MoveStart(cfg, v, s, c);
      if move.Some? {
        step := move.value;
      } else {
        HolderRuns(cfg, s, h);
        step := MoveStartedChild(cfg, v, s, h);
      }
    }
  }

  /** A client's call that holds a block can be moved on, by itself or by a call serving one of its tasks. */
  lemma MoveStartedClient(cfg: Config, v: View, s: State, g: nat) returns (step: Step)
    requires g < |s.gets| && Driven(cfg, v, s, PoolOf(s.gets[g])) && Client(s, g) && Started(s.gets[g])
    ensures Advances(cfg, v, s, step)
  {
    ReachingDelivers(cfg, s, g);
    var move, k := MoveStarted(cfg, v, s, g);
    if move.Some? {
      step := move.value;
    } else {
      assert CallLive(s, s.gets[g]) && TaskLive(s, s.gets[g].tasks[k]) && Linked(cfg, s, g);
      step := MoveChild(cfg, v, s, s.gets[g].tasks[k].stage.child);
    }
  }

  /**
   No deadlock: while some call runs and is not starved, a step for a call can be taken that loses
   nothing, for this call or for one it waits for.
   */
  lemma SomethingMoves(cfg: Config, v: View, s: State, g: nat) returns (step: Step)
    requires g < |s.gets| && Driven(cfg, v, s, PoolOf(s.gets[g])) && Active(s.gets[g]) && !Starved(s, g)
    ensures Advances(cfg, v, s, step)
  {
    if s.gets[g].parent.Some? {
      step := MoveChild(cfg, v, s, g);
    } else if Started(s.gets[g]) {
      step := MoveStartedClient(cfg, v, s, g);
    } else {
      var move, h := MoveStart(cfg, v, s, g);
      if move.Some? {
        step := move.value;
      } else {
        HolderRuns(cfg, s, h);
        step := MoveStartedClient(cfg, v, s, h);
      }
    }
  }

  // ----- and so the call brought to its end

  ghost predicate Unfailed(x: Get)
  {
    if x.phase.Returned? then x.phase.status == 0 else !x.faild
  }

  ghost predicate SameGoals(cfg: Config, s: State, s': State, g: nat)
    requires g < |s.gets| && g < |s'.gets|
  {
    forall r: nat, j: nat :: GoesTo(cfg, s', s'.gets[g], r, j) <==> GoesTo(cfg, s, s.gets[g], r, j)
  }

  lemma ActorKeepsNodes(cfg: Config, s: State, step: Step)
    requires Enabled(cfg, s, step) && Actor(step).Some?
    ensures var s' := Apply(cfg, s, step); s'.nodes == s.nodes && s'.handlers == s.handlers
  {
    if MovesOne(step) {
      StepMoves(cfg, s, step);
    } else if step.Deliver? {
      DeliverJoins(cfg, s, step.g, step.k);
    } else if step.Succeed? {
      SucceedEnds(cfg, s, step.g);
    } else {
      GiveUpEnds(cfg, s, step.g);
    }
  }

  lemma GoalsKept(cfg: Config, s: State, step: Step, g: nat)
    requires Enabled(cfg, s, step) && Actor(step).Some? && g < |s.gets| && s.gets[g].parent.None?
    ensures g < |Apply(cfg, s, step).gets| && SameGoals(cfg, s, Apply(cfg, s, step), g)
  {
    StepContinues(cfg, s, step);
    ActorKeepsNodes(cfg, s, step);
    assert Continues(s.gets[g], Apply(cfg, s, step).gets[g]);
    if step == RouteOne(g) {
      RoutedGoals(cfg, s, g);
    }
  }

  lemma RoutedGoals(cfg: Config, s: State, g: nat)
    requires Enabled(cfg, s, RouteOne(g)) && s.gets[g].parent.None?
    ensures SameGoals(cfg, s, Apply(cfg, s, RouteOne(g)), g)
  {
  }

  lemma ReachKept(cfg: Config, s: State, step: Step, p: nat)
    requires PoolReach(cfg, s, p) && Enabled(cfg, s, step) && Actor(step).Some?
    ensures PoolReach(cfg, Apply(cfg, s, step), p)
  {
    var s' := Apply(cfg, s, step);
    StepContinues(cfg, s, step);
    ActorKeepsNodes(cfg, s, step);
    forall g | 0 <= g < |s'.gets| && Client(s', g) && PoolOf(s'.gets[g]) == p
      ensures Reaching(cfg, s', g)
    {
      if g < |s.gets| {
        assert Continues(s.gets[g], s'.gets[g]);
        GoalsKept(cfg, s, step, g);
        assert Reaching(cfg, s, g);
      }
    }
  }

  /** A call followed after a step for a call was followed before, or serves a task of a followed call. */
  lemma FollowedAfter(v: View, cfg: Config, s: State, step: Step, c: nat)
    requires Safe(cfg, s) && Enabled(cfg, s, step) && Actor(step).Some?
    requires c < |Apply(cfg, s, step).gets| && Followed(v, Apply(cfg, s, step), c)
    ensures if c < |s.gets| then Followed(v, s, c) else step.Deliver? && Followed(v, s, step.g)
  {
    var s' := Apply(cfg, s, step);
    if MovesOne(step) {
      StepMoves(cfg, s, step);
      MovedFollowed(v, s, s', Actor(step).value, c);
    } else if step.Deliver? {
      DeliveredFollowed(v, cfg, s, step.g, step.k, c);
    } else if step.Succeed? {
      SucceedEnds(cfg, s, step.g);
      EndedFollowed(v, s, s', step.g, c);
    } else {
      GiveUpEnds(cfg, s, step.g);
      EndedFollowed(v, s, s', step.g, c);
    }
  }

  lemma DeliveredFollowed(v: View, cfg: Config, s: State, g: nat, k: nat, c: nat)
    requires Safe(cfg, s) && Enabled(cfg, s, Deliver(g, k)) && c <= |s.gets|
    requires Followed(v, Apply(cfg, s, Deliver(g, k)), c)
    ensures if c < |s.gets| then Followed(v, s, c) else Followed(v, s, g)
  {
    StageKnown(cfg, s, g, k);
    DeliverJoins(cfg, s, g, k);
    if c < |s.gets| {
      assert Linked(cfg, s, c);
    }
    JoinedFollowed(v, s, Apply(cfg, s, Deliver(g, k)), g, k, c);
  }

  lemma JoinedFollowed(v: View, s: State, s': State, g: nat, k: nat, c: nat)
    requires Joined(s, s', g, k) && c <= |s.gets| && Followed(v, s', c) && s.gets[g].parent.None?
    requires c < |s.gets| && s.gets[c].parent.Some? ==> ParentOk(s, c)
    ensures if c < |s.gets| then Followed(v, s, c) else Followed(v, s, g)
  {
    if c < |s.gets| && s.gets[c].parent.Some? {
      var (p, j) := s.gets[c].parent.value;
      assert p == g ==> s'.gets[g].tasks[j].stage == Serving(c);
    }
  }

  /** A call's end makes no call followed that was not. */
  lemma EndedFollowed(v: View, s: State, s': State, g: nat, c: nat)
    requires Ends(s, s', g) && c < |s.gets|
    ensures Followed(v, s', c) ==> Followed(v, s, c)
  {
    if Followed(v, s', c) {
      assert s'.gets[c] == s.gets[c].(phase := s'.gets[c].phase, tasks := s'.gets[c].tasks);
      if s.gets[c].parent.Some? {
        var (p, k) := s.gets[c].parent.value;
        assert s'.gets[p].tasks[k] == s.gets[p].tasks[k];
      }
    }
  }

  /** Call `g` alone moves on, to wait for no call it did not wait for. */
  lemma MovedFollowed(v: View, s: State, s': State, g: nat, c: nat)
    requires OneCall(s, s', g) && MovesOn(s.gets[g], s'.gets[g]) && c < |s.gets|
    ensures Followed(v, s', c) ==> Followed(v, s, c)
  {
    if Followed(v, s', c) && s'.gets[c].parent.Some? {
      var (p, k) := s'.gets[c].parent.value;
      assert p == g ==> StageMoves(s.gets[g], s'.gets[g], k);
    }
  }

  lemma CompatibleKept(cfg: Config, v: View, s: State, step: Step)
    requires Safe(cfg, s) && Compatible(cfg, v, s) && Enabled(cfg, s, step) && Actor(step).Some?
    ensures Compatible(cfg, v, Apply(cfg, s, step))
  {
    var s' := Apply(cfg, s, step);
    forall c | 0 <= c < |s'.gets|
      ensures CallCompatible(cfg, v, s', c)
    {
      if Followed(v, s', c) {
        StepContinues(cfg, s, step);
        var b := CompatibleBefore(cfg, v, s, step, c);
        NextCompatible(cfg, v, s, step, c, b);
      }
    }
  }

  /** The call whose demands a followed call's are: itself, or the one it starts to serve. */
  lemma CompatibleBefore(cfg: Config, v: View, s: State, step: Step, c: nat) returns (b: nat)
    requires Safe(cfg, s) && Compatible(cfg, v, s) && Enabled(cfg, s, step) && Actor(step).Some?
    requires c < |Apply(cfg, s, step).gets| && Followed(v, Apply(cfg, s, step), c)
    ensures b < |s.gets| && Followed(v, s, b) && CallCompatible(cfg, v, s, b)
    ensures if c < |s.gets| then b == c else step.Deliver? && b == step.g
  {
    FollowedAfter(v, cfg, s, step, c);
    b := if c < |s.gets| then c else step.g;
    KnownCompatible(cfg, v, s, b);
  }

  lemma NextCompatible(cfg: Config, v: View, s: State, step: Step, c: nat, b: nat)
    requires Safe(cfg, s) && Enabled(cfg, s, step) && Actor(step).Some? && c <= |s.gets|
    requires b < |s.gets| && Followed(v, s, b) && CallCompatible(cfg, v, s, b)
    requires c < |Apply(cfg, s, step).gets|
    requires if c < |s.gets| then b == c else step.Deliver? && b == step.g
    ensures CallCompatible(cfg, v, Apply(cfg, s, step), c)
  {
    if c < |s.gets| {
      OldCompatible(cfg, v, s, step, c);
    } else {
      NewCompatible(cfg, v, s, step.g, step.k);
    }
  }

  lemma KnownCompatible(cfg: Config, v: View, s: State, c: nat)
    requires Compatible(cfg, v, s) && c < |s.gets|
    ensures CallCompatible(cfg, v, s, c)
  {
  }

  lemma OldCompatible(cfg: Config, v: View, s: State, step: Step, c: nat)
    requires Enabled(cfg, s, step) && Actor(step).Some? && c < |s.gets| && c < |Apply(cfg, s, step).gets|
    requires CallCompatible(cfg, v, s, c) && Followed(v, s, c)
    ensures CallCompatible(cfg, v, Apply(cfg, s, step), c)
  {
    var s' := Apply(cfg, s, step);
    ActorKeepsNodes(cfg, s, step);
    CallContinues(cfg, s, step, c);
    SameOpen(cfg, v, s, s', s.gets[c].name);
  }

  /** Lookups find what they found before. */
  lemma SameOpen(cfg: Config, v: View, s: State, s': State, m: Name)
    requires s'.nodes == s.nodes && s'.handlers == s.handlers
    requires forall k :: 0 <= k < |s.nodes| && Finds(s, k, m) ==> Open(cfg, v, m, k)
    ensures forall k :: 0 <= k < |s'.nodes| && Finds(s', k, m) ==> Open(cfg, v, m, k)
  {
    forall k | 0 <= k < |s'.nodes| && Finds(s', k, m)
      ensures Open(cfg, v, m, k)
    {
      assert Finds(s, k, m);
    }
  }

  lemma NewCompatible(cfg: Config, v: View, s: State, g: nat, k: nat)
    requires Safe(cfg, s) && Enabled(cfg, s, Deliver(g, k)) && CallCompatible(cfg, v, s, g) && Followed(v, s, g)
    ensures CallCompatible(cfg, v, Apply(cfg, s, Deliver(g, k)), |s.gets|)
  {
    DeliverJoins(cfg, s, g, k);
    assert NodeOk(cfg, s, k);
    var s' := Apply(cfg, s, Deliver(g, k));
    var m := s.gets[g].name;
    assert Finds(s, k, m) <==> s.handlers[s.nodes[k].table[m]].loaded;
    SameOpen(cfg, v, s, s', m);
  }

  // ----- runs from a state

  predicate Goes(cfg: Config, s: State, step: Step, s': State)
  {
    Enabled(cfg, s, step) && s' == Apply(cfg, s, step)
  }

  /** The steps lead through these states, one after another. */
  ghost predicate Trace(cfg: Config, states: seq<State>, more: seq<Step>)
  {
    |states| == |more| + 1 && forall i :: 0 <= i < |more| ==> Goes(cfg, states[i], more[i], states[i + 1])
  }

  lemma AddStep(cfg: Config, steps: seq<Step>, step: Step)
    requires Legal(cfg, steps) && Enabled(cfg, Final(cfg, steps), step)
    ensures Legal(cfg, steps + [step]) && Final(cfg, steps + [step]) == Apply(cfg, Final(cfg, steps), step)
  {
    assert (steps + [step])[..|steps|] == steps;
  }

  lemma LastStep(cfg: Config, steps: seq<Step>, step: Step)
    requires Legal(cfg, steps + [step])
    ensures Legal(cfg, steps) && Enabled(cfg, Final(cfg, steps), step)
    ensures Final(cfg, steps + [step]) == Apply(cfg, Final(cfg, steps), step)
  {
    assert (steps + [step])[..|steps|] == steps;
  }

  /** A run followed by a trace from where it ends is a run. */
  lemma AddTraceOne(cfg: Config, steps: seq<Step>, states: seq<State>, more: seq<Step>)
    requires more != [] && |states| == |more| + 1
    requires Legal(cfg, steps + more[..|more| - 1]) && Final(cfg, steps + more[..|more| - 1]) == states[|more| - 1]
    requires Goes(cfg, states[|more| - 1], more[|more| - 1], states[|more|])
    ensures Legal(cfg, steps + more) && Final(cfg, steps + more) == states[|more|]
  {
    var n := |more| - 1;
    AddStep(cfg, steps + more[..n], more[n]);
    assert steps + more == steps + more[..n] + [more[n]];
  }

  lemma TracePrefix(cfg: Config, states: seq<State>, more: seq<Step>)
    requires Trace(cfg, states, more) && more != []
    ensures Trace(cfg, states[..|more|], more[..|more| - 1])
  {
    var n := |more| - 1;
    forall i | 0 <= i < n
      ensures Goes(cfg, states[..n + 1][i], more[..n][i], states[..n + 1][i + 1])
    {
      assert Goes(cfg, states[i], more[i], states[i + 1]);
    }
  }

  lemma {:induction false} AddTrace(cfg: Config, steps: seq<Step>, states: seq<State>, more: seq<Step>)
    requires Legal(cfg, steps) && Trace(cfg, states, more) && states[0] == Final(cfg, steps)
    ensures Legal(cfg, steps + more) && Final(cfg, steps + more) == states[|more|]
  {
    if more == [] {
      assert steps + more == steps;
    } else {
      TracePrefix(cfg, states, more);
      AddTrace(cfg, steps, states[..|more|], more[..|more| - 1]);
      AddTraceOne(cfg, steps, states, more);
    }
  }

  lemma TraceBefore(cfg: Config, s: State, step: Step, states: seq<State>, more: seq<Step>)
    requires Trace(cfg, states, more) && Goes(cfg, s, step, states[0])
    ensures Trace(cfg, [s] + states, [step] + more)
  {
    forall i | 0 <= i < |more| + 1
      ensures Goes(cfg, ([s] + states)[i], ([step] + more)[i], ([s] + states)[i + 1])
    {
      TraceBeforeAt(cfg, s, step, states, more, i);
    }
  }

  lemma TraceBeforeAt(cfg: Config, s: State, step: Step, states: seq<State>, more: seq<Step>, i: nat)
    requires |states| == |more| + 1 && i <= |more|
    requires if i == 0 then Goes(cfg, s, step, states[0]) else Goes(cfg, states[i - 1], more[i - 1], states[i])
    ensures Goes(cfg, ([s] + states)[i], ([step] + more)[i], ([s] + states)[i + 1])
  {
    assert ([s] + states)[i + 1] == states[i];
    if i > 0 {
      assert ([s] + states)[i] == states[i - 1] && ([step] + more)[i] == more[i - 1];
    }
  }

  lemma LastOfMore(cfg: Config, steps: seq<Step>, more: seq<Step>)
    requires Legal(cfg, steps + more) && more != []
    ensures var front, last := steps + more[..|more| - 1], more[|more| - 1];
            && steps + more == front + [last] && Legal(cfg, front) && Enabled(cfg, Final(cfg, front), last)
            && Final(cfg, steps + more) == Apply(cfg, Final(cfg, front), last)
  {
    var n := |more| - 1;
    assert steps + more == steps + more[..n] + [more[n]];
    LastStep(cfg, steps + more[..n], more[n]);
  }

  // ----- driving a call on

  /** `s'` goes on from `s`, keeping the view and where call `g`'s requests go. */
  ghost predicate GoesOn(cfg: Config, v: View, s: State, s': State, g: nat)
    requires g < |s.gets|
  {
    && g < |s'.gets| && Continues(s.gets[g], s'.gets[g])
    && (s.gets[g].parent.None? ==> SameGoals(cfg, s, s', g))
    && (Unfailed(s.gets[g]) ==> Unfailed(s'.gets[g]))
    && (Rights(cfg, v, s) ==> Rights(cfg, v, s'))
  }

  lemma NextStep(cfg: Config, v: View, s: State, g: nat) returns (step: Step, s': State)
    requires g < |s.gets| && Driven(cfg, v, s, PoolOf(s.gets[g])) && Active(s.gets[g]) && !Starved(s, g)
    ensures Goes(cfg, s, step, s') && Actor(step).Some? && !step.Lose?
    ensures GoesOn(cfg, v, s, s', g) && Driven(cfg, v, s', PoolOf(s.gets[g]))
    ensures !Starved(s', g) && Work(cfg, s') < Work(cfg, s)
  {
    step := SomethingMoves(cfg, v, s, g);
    StepWork(cfg, s, step);
    StepDriven(cfg, v, s, step, PoolOf(s.gets[g]));
    NextState(cfg, v, s, step, g);
    NotStarved(cfg, s, step, g);
    s' := Apply(cfg, s, step);
  }

  lemma StepDriven(cfg: Config, v: View, s: State, step: Step, p: nat)
    requires Driven(cfg, v, s, p) && Enabled(cfg, s, step) && Actor(step).Some?
    ensures Driven(cfg, v, Apply(cfg, s, step), p)
  {
    StepSound(cfg, s, step);
    ReachKept(cfg, s, step, p);
    CompatibleKept(cfg, v, s, step);
  }

  /** What one step of the drive keeps. */
  lemma NextState(cfg: Config, v: View, s: State, step: Step, g: nat)
    requires Safe(cfg, s) && Advances(cfg, v, s, step) && g < |s.gets|
    ensures GoesOn(cfg, v, s, Apply(cfg, s, step), g)
  {
    CallContinues(cfg, s, step, g);
    UnfailedKept(cfg, s, step, g);
    if s.gets[g].parent.None? {
      GoalsKept(cfg, s, step, g);
    }
    if Rights(cfg, v, s) {
      StepFlow(cfg, v, s, step);
    }
  }

  /** Without losses no call gets starved. */
  lemma NotStarved(cfg: Config, s: State, step: Step, g: nat)
    requires Sound(cfg, s) && Enabled(cfg, s, step) && !step.Lose? && !step.Reject?
    requires g < |s.gets| && !Starved(s, g)
    ensures g < |Apply(cfg, s, step).gets| && !Starved(Apply(cfg, s, step), g)
  {
    CallContinues(cfg, s, step, g);
    if s.gets[g].parent.None? && s.gets[g].phase.Routing? {
      PoolKnown(cfg, s, g);
      StepUndrained(cfg, s, step, PoolOf(s.gets[g]));
    }
    StillNotStarved(s, Apply(cfg, s, step), g);
  }

  lemma StillNotStarved(s: State, s': State, g: nat)
    requires g < |s.gets| && g < |s'.gets| && Continues(s.gets[g], s'.gets[g])
    requires s.gets[g].parent.None? && s.gets[g].phase.Routing? ==> !Drained(s', PoolOf(s.gets[g]))
    ensures !Starved(s', g)
  {
  }

  lemma PoolKnown(cfg: Config, s: State, g: nat)
    requires Safe(cfg, s) && g < |s.gets|
    ensures PoolOf(s.gets[g]) < |s.free|
  {
    assert GetOk(cfg, s.gets[g]);
  }

  lemma UnfailedKept(cfg: Config, s: State, step: Step, g: nat)
    requires Safe(cfg, s) && Enabled(cfg, s, step) && Actor(step).Some? && !step.Lose? && !step.Reject? && g < |s.gets|
    ensures g < |Apply(cfg, s, step).gets|
    ensures Unfailed(s.gets[g]) ==> Unfailed(Apply(cfg, s, step).gets[g])
  {
    if MovesOne(step) {
      StepMoves(cfg, s, step);
      MovedUnfailed(s, Apply(cfg, s, step), Actor(step).value, g);
    } else if step.Deliver? {
      DeliverJoins(cfg, s, step.g, step.k);
    } else {
      EndedUnfailed(cfg, s, step, g);
    }
  }

  lemma MovedUnfailed(s: State, s': State, a: nat, g: nat)
    requires OneCall(s, s', a) && MovesOn(s.gets[a], s'.gets[a]) && s'.gets[a].faild == s.gets[a].faild && g < |s.gets|
    ensures Unfailed(s.gets[g]) ==> Unfailed(s'.gets[g])
  {
  }

  lemma EndedUnfailed(cfg: Config, s: State, step: Step, g: nat)
    requires Enabled(cfg, s, step) && (step.Succeed? || step.GiveUp?) && g < |s.gets|
    ensures g < |Apply(cfg, s, step).gets|
    ensures Unfailed(s.gets[g]) ==> Unfailed(Apply(cfg, s, step).gets[g])
  {
    if step.Succeed? {
      SucceedEnds(cfg, s, step.g);
    } else {
      GiveUpEnds(cfg, s, step.g);
    }
  }

  /** The steps of a run that all work for calls and lose nothing. */
  predicate Lossless(steps: seq<Step>)
  {
    forall i :: 0 <= i < |steps| ==> Actor(steps[i]).Some? && !steps[i].Lose?
  }

  /** Driven on by such steps, a call that is not starved comes to its end, with status 0 unless it had failed. */
  lemma {:induction false} Drive(cfg: Config, v: View, s: State, g: nat) returns (states: seq<State>, more: seq<Step>)
    requires g < |s.gets| && Driven(cfg, v, s, PoolOf(s.gets[g])) && !Starved(s, g)
    ensures Lossless(more) && Trace(cfg, states, more) && states[0] == s
    ensures Sound(cfg, states[|more|]) && GoesOn(cfg, v, s, states[|more|], g)
    ensures states[|more|].gets[g].phase.Returned?
    decreases Work(cfg, s)
  {
    if s.gets[g].phase.Returned? {
      states, more := [s], [];
    } else {
      var step, next := NextStep(cfg, v, s, g);
      assert PoolOf(next.gets[g]) == PoolOf(s.gets[g]);
      states, more := Drive(cfg, v, next, g);
      GoesFurther(cfg, v, s, next, states[|more|], g);
      states, more := DriveBefore(cfg, s, step, states, more);
    }
  }

  lemma DriveBefore(cfg: Config, s: State, step: Step, rest: seq<State>, last: seq<Step>)
    returns (states: seq<State>, more: seq<Step>)
    requires Trace(cfg, rest, last) && Goes(cfg, s, step, rest[0])
    requires Lossless(last) && Actor(step).Some? && !step.Lose?
    ensures Trace(cfg, states, more) && Lossless(more) && states[0] == s && states[|more|] == rest[|last|]
  {
    TraceBefore(cfg, s, step, rest, last);
    states, more := [s] + rest, [step] + last;
  }

  lemma GoesFurther(cfg: Config, v: View, a: State, b: State, c: State, g: nat)
    requires g < |a.gets| && GoesOn(cfg, v, a, b, g) && GoesOn(cfg, v, b, c, g)
    ensures GoesOn(cfg, v, a, c, g)
  {
  }

  /** The drive as a longer run. */
  lemma CanFinish(cfg: Config, v: View, steps: seq<Step>, g: nat) returns (more: seq<Step>)
    requires Legal(cfg, steps) && g < |Final(cfg, steps).gets|
    requires var s := Final(cfg, steps); Compatible(cfg, v, s) && PoolReach(cfg, s, PoolOf(s.gets[g])) && !Starved(s, g)
    ensures Lossless(more) && Legal(cfg, steps + more)
    ensures GoesOn(cfg, v, Final(cfg, steps), Final(cfg, steps + more), g)
    ensures Final(cfg, steps + more).gets[g].phase.Returned?
  {
    RunsAreSound(cfg, steps);
    var states, tail := Drive(cfg, v, Final(cfg, steps), g);
    AddTrace(cfg, steps, states, tail);
    more := tail;
  }

  /** A view that expects nothing that the slices do not give. */
  function Untrapped(i: nat): (v: View)
  {
    View(ClientsOf(i), None)
  }

  /** The drive with nothing particular about the bytes. */
  lemma PlainFinish(cfg: Config, steps: seq<Step>, g: nat) returns (more: seq<Step>)
    requires Legal(cfg, steps) && g < |Final(cfg, steps).gets|
    requires var s := Final(cfg, steps); PoolReach(cfg, s, PoolOf(s.gets[g])) && !Starved(s, g)
    ensures Lossless(more) && Legal(cfg, steps + more)
    ensures GoesOn(cfg, Untrapped(0), Final(cfg, steps), Final(cfg, steps + more), g)
    ensures Final(cfg, steps + more).gets[g].phase.Returned?
  {
    RunsAreSound(cfg, steps);
    NoTrapCompatible(cfg, Untrapped(0), Final(cfg, steps));
    more := CanFinish(cfg, Untrapped(0), steps, g);
  }

  // ----- exactly when

  /** A starved call stays where it is, whatever happens next. */
  lemma {:induction false} StarvedForever(cfg: Config, steps: seq<Step>, more: seq<Step>, g: nat)
    requires Legal(cfg, steps) && g < |Final(cfg, steps).gets| && Starved(Final(cfg, steps), g)
    requires Legal(cfg, steps + more)
    ensures g < |Final(cfg, steps + more).gets| && Starved(Final(cfg, steps + more), g)
  {
    if more == [] {
      assert steps + more == steps;
    } else {
      LastOfMore(cfg, steps, more);
      StarvedForever(cfg, steps, more[..|more| - 1], g);
      StarvedOneMore(cfg, steps + more[..|more| - 1], more[|more| - 1], g);
    }
  }

  lemma StarvedOneMore(cfg: Config, steps: seq<Step>, step: Step, g: nat)
    requires Legal(cfg, steps) && Enabled(cfg, Final(cfg, steps), step)
    requires g < |Final(cfg, steps).gets| && Starved(Final(cfg, steps), g)
    ensures var s' := Apply(cfg, Final(cfg, steps), step); g < |s'.gets| && Starved(s', g)
  {
    RunsAreSound(cfg, steps);
    StarvedNext(cfg, Final(cfg, steps), step, g);
  }

  lemma StarvedNext(cfg: Config, s: State, step: Step, g: nat)
    requires Safe(cfg, s) && PoolsExact(s) && Enabled(cfg, s, step) && g < |s.gets| && Starved(s, g)
    ensures g < |Apply(cfg, s, step).gets| && Starved(Apply(cfg, s, step), g)
  {
    StepDrained(cfg, s, step, PoolOf(s.gets[g]));
    CallContinues(cfg, s, step, g);
    if step.Allocate? && step.g == g {
      DrainedShut(cfg, s, g, step);
    }
    RoutingKept(cfg, s, step, g);
  }

  lemma RoutingKept(cfg: Config, s: State, step: Step, g: nat)
    requires Enabled(cfg, s, step) && g < |s.gets| && s.gets[g].phase.Routing? && !(step.Allocate? && step.g == g)
    ensures g < |Apply(cfg, s, step).gets| && Apply(cfg, s, step).gets[g].phase.Routing?
  {
    if MovesStart(step) {
      StartKeepsRouting(cfg, s, step, g);
    } else if MovesOne(step) {
      TaskStepMoves(cfg, s, step);
    } else if step.Deliver? {
      DeliverJoins(cfg, s, step.g, step.k);
    } else if step.Capture? {
      CaptureStarts(cfg, s, step.node, step.reqs);
    } else if Switches(step) {
      SwitchContinues(cfg, s, step);
    } else {
      EndKeepsRouting(cfg, s, step, g);
    }
  }

  lemma StartKeepsRouting(cfg: Config, s: State, step: Step, g: nat)
    requires Enabled(cfg, s, step) && MovesStart(step)
    requires g < |s.gets| && s.gets[g].phase.Routing? && !(step.Allocate? && step.g == g)
    ensures g < |Apply(cfg, s, step).gets| && Apply(cfg, s, step).gets[g].phase.Routing?
  {
    if step.RouteOne? {
      RouteMoves(cfg, s, step.g);
    } else if step.Unlock? {
      UnlockMoves(cfg, s, step.g);
    } else if step.Allocate? {
      AllocateMoves(cfg, s, step.g, step.newBlock);
    } else {
      PushMoves(cfg, s, step.g);
    }
  }

  lemma EndKeepsRouting(cfg: Config, s: State, step: Step, g: nat)
    requires Enabled(cfg, s, step) && (step.Succeed? || step.GiveUp?) && g < |s.gets| && s.gets[g].phase.Routing?
    ensures g < |Apply(cfg, s, step).gets| && Apply(cfg, s, step).gets[g].phase.Routing?
  {
    if step.Succeed? {
      SucceedEnds(cfg, s, step.g);
    } else {
      GiveUpEnds(cfg, s, step.g);
    }
  }

  /** The run is legal and call `g` has returned in it. */
  ghost predicate ReturnsIn(cfg: Config, all: seq<Step>, g: nat)
  {
    Legal(cfg, all) && g < |Final(cfg, all).gets| && Final(cfg, all).gets[g].phase.Returned?
  }

  /**
   Exactly when a call can come to its end, from any reachable state in which the requests of its node's
   running clients go to nodes that list their models: unless it is a client's call that waits for a block
   while the pool has made all it makes, failed calls hold every block, and no call is making another.
   */
  lemma EndsUnlessStarved(cfg: Config, steps: seq<Step>, g: nat)
    requires Legal(cfg, steps) && g < |Final(cfg, steps).gets|
    requires PoolReach(cfg, Final(cfg, steps), PoolOf(Final(cfg, steps).gets[g]))
    ensures (exists more :: ReturnsIn(cfg, steps + more, g)) <==> !Starved(Final(cfg, steps), g)
  {
    if Starved(Final(cfg, steps), g) {
      forall more | ReturnsIn(cfg, steps + more, g)
        ensures false
      {
        StarvedForever(cfg, steps, more, g);
      }
    } else {
      var more := PlainFinish(cfg, steps, g);
      assert ReturnsIn(cfg, steps + more, g);
    }
  }
}
