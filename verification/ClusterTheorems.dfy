/** The main results about runs of the cluster. */
module ClusterTheorems {
  import opened Bytes
  import opened Requests
  import opened Sharding
  import opened Cluster
  import opened ClusterSafety
  import opened ClusterCalls
  import opened ClusterFlow
  import opened ClusterProgress
  import opened ClusterRoutes
  import opened ClusterReads

  // ----- one client's answer

  /** `g` is a client's call that has returned status 0. */
  ghost predicate Succeeded(s: State, g: nat)
  {
    g < |s.gets| && s.gets[g].parent.None? && s.gets[g].phase.Returned? && s.gets[g].phase.status == 0
  }

  /** The bytes a plain read of the slice file gives for one request. */
  function PlainRead(files: seq<seq<Byte>>, req: SliceRequest): (r: seq<Byte>)
    requires InFile(files, req)
  {
    files[req.partition][req.start..req.start + req.len]
  }

  /** The request names a slice of the model and a range inside that slice. */
  predicate InFile(files: seq<seq<Byte>>, req: SliceRequest)
  {
    req.partition < |files| && req.start + req.len <= |files[req.partition]|
  }

  /** A slice's size passes through an `int` when model.meta is parsed. */
  predicate IntSized(cfg: Config)
  {
    forall m :: m in cfg.files ==> forall p :: 0 <= p < |cfg.files[m]| ==> |cfg.files[m][p]| < TWO_31
  }

  /** With such sizes the readers take every offset inside a slice as it is. */
  lemma OffsetKept(cfg: Config, m: Name, req: SliceRequest)
    requires IntSized(cfg) && m in cfg.files && InFile(cfg.files[m], req)
    ensures Inside(cfg, m, req) && FileBytes(cfg, m, req) == PlainRead(cfg.files[m], req)
  {
    NarrowFixed(req.start);
  }

  /**
   End to end, over every schedule in which the readers of its node were sheltered: a client that gets
   status 0 has one answer per request, in request order and of the length asked for; and each request whose
   slice is loaded by the node it was sent to is answered with the file's own bytes.
   */
  lemma AnswersAreFileBytes(cfg: Config, steps: seq<Step>, g: nat)
    requires IntSized(cfg) && Legal(cfg, steps) && Succeeded(Final(cfg, steps), g)
    requires CalmRun(cfg, steps, Final(cfg, steps).gets[g].node)
    ensures var x := Final(cfg, steps).gets[g];
            && |x.phase.data| == |x.reqs| == |x.route|
            && x.name in cfg.files && 1 <= cfg.nodes <= |cfg.files[x.name]|
            && forall i :: 0 <= i < |x.reqs| ==>
                 && |x.phase.data[i]| == x.reqs[i].len
                 && (InFile(cfg.files[x.name], x.reqs[i]) &&
                     Loads(|cfg.files[x.name]|, cfg.nodes, x.route[i], x.reqs[i].partition)
                     ==> x.phase.data[i] == PlainRead(cfg.files[x.name], x.reqs[i]))
  {
    var s := Final(cfg, steps);
    var x := s.gets[g];
    RunsAreSafe(cfg, steps);
    RunsAreTrue(cfg, steps, x.node);
    assert GetOk(cfg, x) && GetRight(cfg, Untrapped(x.node), s, g);
    forall i | 0 <= i < |x.reqs|
      ensures |x.phase.data[i]| == x.reqs[i].len
      ensures InFile(cfg.files[x.name], x.reqs[i]) && HasSlice(cfg, x.name, x.route[i], x.reqs[i].partition) ==>
                x.phase.data[i] == PlainRead(cfg.files[x.name], x.reqs[i])
    {
      assert EntryRight(cfg, Untrapped(x.node), x, i, x.phase.data[i]);
      if InFile(cfg.files[x.name], x.reqs[i]) {
        OffsetKept(cfg, x.name, x.reqs[i]);
      }
    }
  }

  /** When moreover no request of its node went astray, every range inside a slice is answered with the file's bytes. */
  lemma StraightAnswers(cfg: Config, steps: seq<Step>, g: nat)
    requires Legal(cfg, steps) && Succeeded(Final(cfg, steps), g)
    requires var i := Final(cfg, steps).gets[g].node; CalmRun(cfg, steps, i) && StraightRun(cfg, steps, i)
    ensures ClientRight(cfg, Final(cfg, steps).gets[g])
  {
    var s := Final(cfg, steps);
    var x := s.gets[g];
    RunsAreSafe(cfg, steps);
    RunsAreTrue(cfg, steps, x.node);
    RunsAreAimed(cfg, steps, x.node);
    AimedRight(cfg, s, g);
  }

  lemma AimedRight(cfg: Config, s: State, g: nat)
    requires Succeeded(s, g) && GetOk(cfg, s.gets[g])
    requires Rights(cfg, Untrapped(s.gets[g].node), s) && AllAimed(cfg, s, s.gets[g].node)
    ensures ClientRight(cfg, s.gets[g])
  {
    var x := s.gets[g];
    assert GetRight(cfg, Untrapped(x.node), s, g);
    assert !x.faild by {
      FinishMeansAllDone(cfg, x);
    }
    assert Aimed(cfg, x);
    forall i: nat | i < |x.reqs|
      ensures |x.phase.data[i]| == x.reqs[i].len
      ensures Inside(cfg, x.name, x.reqs[i]) ==> x.phase.data[i] == FileBytes(cfg, x.name, x.reqs[i])
    {
      AimedEntry(cfg, x, i);
    }
  }

  lemma AimedEntry(cfg: Config, x: Get, i: nat)
    requires x.phase.Returned? && x.parent.None? && Servable(cfg, x.name) && Aimed(cfg, x) && i < |x.phase.data|
    requires EntryRight(cfg, Untrapped(x.node), x, i, x.phase.data[i])
    ensures |x.phase.data[i]| == x.reqs[i].len
    ensures Inside(cfg, x.name, x.reqs[i]) ==> x.phase.data[i] == FileBytes(cfg, x.name, x.reqs[i])
  {
  }

  /** One answer per request, of the length asked for, and the file's bytes for every range inside a slice. */
  ghost predicate ClientRight(cfg: Config, x: Get)
    requires x.phase.Returned?
  {
    && |x.phase.data| == |x.reqs|
    && forall i :: 0 <= i < |x.reqs| ==>
         && |x.phase.data[i]| == x.reqs[i].len
         && (Inside(cfg, x.name, x.reqs[i]) ==> x.phase.data[i] == FileBytes(cfg, x.name, x.reqs[i]))
  }

  // ----- with one slice count for all models

  /** All models have the same number of slices, so the two published values of a switch always agree. */
  predicate SameSliceCount(cfg: Config, slices: nat)
  {
    1 <= cfg.nodes <= slices && forall m :: m in cfg.files ==> |cfg.files[m]| == slices
  }

  ghost predicate Uniform(cfg: Config, s: State, slices: nat)
    requires 1 <= cfg.nodes <= slices
  {
    && PerNode(slices, cfg.nodes) > 0
    && (forall i :: 0 <= i < |s.nodes| && s.nodes[i].perNode > 0 ==> s.nodes[i].perNode == PerNode(slices, cfg.nodes))
    && (forall g :: 0 <= g < |s.gets| && s.gets[g].parent.None? ==> RoutedBy(cfg, s.gets[g], slices))
  }

  ghost predicate RoutedBy(cfg: Config, x: Get, slices: nat)
    requires 1 <= cfg.nodes <= slices && PerNode(slices, cfg.nodes) > 0
  {
    forall i :: 0 <= i < |x.route| && i < |x.reqs| ==>
      x.route[i] == NodeForSlice(PerNode(slices, cfg.nodes), cfg.nodes, x.reqs[i].partition)
  }

  lemma StepUniform(cfg: Config, s: State, step: Step, slices: nat)
    requires SameSliceCount(cfg, slices) && Uniform(cfg, s, slices) && Enabled(cfg, s, step)
    ensures Uniform(cfg, Apply(cfg, s, step), slices)
  {
    var s' := Apply(cfg, s, step);
    StepContinues(cfg, s, step);
    PerNodeFrame(cfg, s, step);
    forall g | 0 <= g < |s'.gets| && s'.gets[g].parent.None?
      ensures RoutedBy(cfg, s'.gets[g], slices)
    {
      if g < |s.gets| {
        assert Continues(s.gets[g], s'.gets[g]) && RoutedBy(cfg, s.gets[g], slices);
        if step == RouteOne(g) {
          RouteOneUniform(cfg, s, g, slices);
        }
      }
    }
  }

  lemma PerNodeFrame(cfg: Config, s: State, step: Step)
    requires Enabled(cfg, s, step)
    ensures var s' := Apply(cfg, s, step);
            && |s'.nodes| == |s.nodes|
            && forall i :: 0 <= i < |s.nodes| ==>
                 s'.nodes[i].perNode ==
                 (if step.StoreRoute? && step.node == i then PerNode(|cfg.files[step.name]|, cfg.nodes)
                  else s.nodes[i].perNode)
  {
    if Quiet(step) {
      RoutesKept(cfg, s, step);
    }
  }

  lemma RouteOneUniform(cfg: Config, s: State, g: nat, slices: nat)
    requires SameSliceCount(cfg, slices) && Uniform(cfg, s, slices) && Enabled(cfg, s, RouteOne(g))
    requires s.gets[g].parent.None?
    ensures RoutedBy(cfg, Apply(cfg, s, RouteOne(g)).gets[g], slices)
  {
    assert RoutedBy(cfg, s.gets[g], slices);
  }

  lemma {:induction false} RunsAreUniform(cfg: Config, steps: seq<Step>, slices: nat)
    requires SameSliceCount(cfg, slices) && Legal(cfg, steps)
    ensures Uniform(cfg, Final(cfg, steps), slices)
  {
    Split(slices, cfg.nodes);
    if steps != [] {
      var n := |steps| - 1;
      RunsAreUniform(cfg, steps[..n], slices);
      StepUniform(cfg, Final(cfg, steps[..n]), steps[n], slices);
    }
  }

  /**
   With models of equal slice count, over every schedule: a client that gets status 0 has the file's
   own bytes for every request of its list inside the model, save those for stranded slices.
   */
  lemma AnswersUnlessStranded(cfg: Config, steps: seq<Step>, slices: nat, g: nat)
    requires IntSized(cfg) && SameSliceCount(cfg, slices)
    requires Legal(cfg, steps) && Succeeded(Final(cfg, steps), g)
    requires CalmRun(cfg, steps, Final(cfg, steps).gets[g].node)
    ensures var x := Final(cfg, steps).gets[g];
            && x.name in cfg.files && |x.phase.data| == |x.reqs|
            && forall i :: 0 <= i < |x.reqs| ==>
                 InFile(cfg.files[x.name], x.reqs[i]) && !Stranded(slices, cfg.nodes, x.reqs[i].partition) ==>
                   x.phase.data[i] == PlainRead(cfg.files[x.name], x.reqs[i])
  {
    AnswersAreFileBytes(cfg, steps, g);
    RunsAreUniform(cfg, steps, slices);
    var x := Final(cfg, steps).gets[g];
    var files := cfg.files[x.name];
    forall i | 0 <= i < |x.reqs| && InFile(files, x.reqs[i]) && !Stranded(slices, cfg.nodes, x.reqs[i].partition)
      ensures x.phase.data[i] == PlainRead(files, x.reqs[i])
    {
      assert RoutedBy(cfg, x, slices);
      RouteAgrees(slices, cfg.nodes, x.route[i], x.reqs[i].partition);
    }
  }

  /** The answer of a plain loop over the requests, reading one slice file after another. */
  function SequentialReads(files: seq<seq<Byte>>, reqs: seq<SliceRequest>): (out: seq<seq<Byte>>)
    requires forall i :: 0 <= i < |reqs| ==> InFile(files, reqs[i])
  {
    if reqs == [] then []
    else SequentialReads(files, reqs[..|reqs| - 1]) + [PlainRead(files, reqs[|reqs| - 1])]
  }

  lemma {:induction false} SequentialAt(files: seq<seq<Byte>>, reqs: seq<SliceRequest>)
    requires forall i :: 0 <= i < |reqs| ==> InFile(files, reqs[i])
    ensures |SequentialReads(files, reqs)| == |reqs|
    ensures forall i :: 0 <= i < |reqs| ==> SequentialReads(files, reqs)[i] == PlainRead(files, reqs[i])
  {
    if reqs != [] {
      var n := |reqs| - 1;
      var front := SequentialReads(files, reqs[..n]);
      SequentialAt(files, reqs[..n]);
      assert SequentialReads(files, reqs) == front + [PlainRead(files, reqs[n])];
      forall i | 0 <= i < n
        ensures SequentialReads(files, reqs)[i] == PlainRead(files, reqs[i])
      {
        assert front[i] == PlainRead(files, reqs[..n][i]);
      }
    }
  }

  /**
   When moreover no slice is stranded, which is when the remainder is below the quotient, `Get`
   refines the plain loop: status 0 means exactly the loop's answer on the captured model.
   */
  lemma GetRefinesPlainLoop(cfg: Config, steps: seq<Step>, slices: nat, g: nat)
    requires IntSized(cfg) && SameSliceCount(cfg, slices) && slices % cfg.nodes < slices / cfg.nodes
    requires Legal(cfg, steps) && Succeeded(Final(cfg, steps), g)
    requires CalmRun(cfg, steps, Final(cfg, steps).gets[g].node)
    requires Final(cfg, steps).gets[g].name in cfg.files
    requires var x := Final(cfg, steps).gets[g];
             forall i :: 0 <= i < |x.reqs| ==> InFile(cfg.files[x.name], x.reqs[i])
    ensures var x := Final(cfg, steps).gets[g];
            x.phase.data == SequentialReads(cfg.files[x.name], x.reqs)
  {
    var x := Final(cfg, steps).gets[g];
    AnswersUnlessStranded(cfg, steps, slices, g);
    SequentialAt(cfg.files[x.name], x.reqs);
  }

  // ----- one model per call

  /** Step `m` of the run started call `g`, which took its model from what the node then served. */
  ghost predicate StartedAt(cfg: Config, steps: seq<Step>, g: nat, m: nat)
    requires Legal(cfg, steps)
  {
    && m < |steps| && Legal(cfg, steps[..m]) && g < |Final(cfg, steps).gets|
    && (var x, s := Final(cfg, steps).gets[g], Final(cfg, steps[..m]);
        && |s.gets| == g
        && (match x.parent
            case None =>
              && steps[m] == Capture(x.node, x.reqs)
              && x.node < |s.nodes| && Serves(s, x.node, x.name)
            case Some((p, k)) =>
              && steps[m] == Deliver(p, k)
              && p < |s.gets| && x.name == s.gets[p].name))
  }

  /**
   Every call keeps for good the one model it started with: a client's call the model its node served
   at that moment, a call for another node's task the model of that task's own call.
   */
  lemma {:induction false} OneModelPerCall(cfg: Config, steps: seq<Step>, g: nat) returns (m: nat)
    requires Legal(cfg, steps) && g < |Final(cfg, steps).gets|
    ensures StartedAt(cfg, steps, g, m)
  {
    var n := |steps| - 1;
    if g < |Final(cfg, steps[..n]).gets| {
      m := OneModelPerCall(cfg, steps[..n], g);
      StillStarted(cfg, steps, g, m);
    } else {
      m := n;
      JustStarted(cfg, steps, g);
    }
  }

  lemma StillStarted(cfg: Config, steps: seq<Step>, g: nat, m: nat)
    requires Legal(cfg, steps) && steps != [] && StartedAt(cfg, steps[..|steps| - 1], g, m)
    ensures StartedAt(cfg, steps, g, m)
  {
    var n := |steps| - 1;
    CallContinues(cfg, Final(cfg, steps[..n]), steps[n], g);
    assert steps[..n][..m] == steps[..m];
  }

  lemma JustStarted(cfg: Config, steps: seq<Step>, g: nat)
    requires Legal(cfg, steps) && steps != []
    requires |Final(cfg, steps[..|steps| - 1]).gets| <= g < |Final(cfg, steps).gets|
    ensures StartedAt(cfg, steps, g, |steps| - 1)
  {
    var n := |steps| - 1;
    var s := Final(cfg, steps[..n]);
    StepContinues(cfg, s, steps[n]);
    if steps[n].Capture? {
      RunsAreSafe(cfg, steps[..n]);
      assert NodeOk(cfg, s, steps[n].node);
    } else {
      DeliverJoins(cfg, s, steps[n].g, steps[n].k);
    }
  }

  // ----- calls do not disturb each other

  /** The two steps that write bytes. */
  predicate Writes(step: Step)
  {
    step.ReadOne? || step.CopyBack?
  }

  /** The request whose slot a writing step fills. */
  function WrittenEntry(s: State, step: Step): (i: nat)
    requires Writes(step) && HasTask(s, step.g, step.k)
    requires (s.gets[step.g].tasks[step.k].stage.Running? || s.gets[step.g].tasks[step.k].stage.Replied?)
    requires s.gets[step.g].tasks[step.k].stage.done < |s.gets[step.g].tasks[step.k].ix|
  {
    s.gets[step.g].tasks[step.k].ix[s.gets[step.g].tasks[step.k].stage.done]
  }

  /** A writing step changes one slot of one block. */
  lemma WriteFrame(cfg: Config, s: State, step: Step)
    requires Enabled(cfg, s, step) && Writes(step)
    ensures var s', x := Apply(cfg, s, step), s.gets[step.g];
            && |s'.blocks| == |s.blocks| && x.block < |s.blocks|
            && |s'.blocks[x.block]| == |s.blocks[x.block]|
            && (forall b :: 0 <= b < |s.blocks| && b != x.block ==> s'.blocks[b] == s.blocks[b])
            && (forall y: nat :: y < |s.blocks[x.block]| && !Covers(x.reqs, WrittenEntry(s, step), y) ==>
                  s'.blocks[x.block][y] == s.blocks[x.block][y])
  {
  }

  /** A write lands in a block its call holds and no one else does, and changes no byte outside the entry's slot. */
  ghost predicate StaysInside(s: State, s': State, x: Get, g: nat, i: nat)
  {
    && Holds(x) && !(x.phase.Returned? && x.phase.status == 0)
    && |s'.blocks| == |s.blocks| && x.block < |s.blocks|
    && |s'.blocks[x.block]| == |s.blocks[x.block]| == BLOCK_SIZE
    && (forall b :: 0 <= b < |s.blocks| && b != x.block ==> s'.blocks[b] == s.blocks[b])
    && (forall h :: 0 <= h < |s.gets| && h != g && Holds(s.gets[h]) ==> s.gets[h].block != x.block)
    && (forall p: nat, a: nat :: InPool(s, p, a) ==> s.free[p][a] != x.block)
    && (forall y: nat :: y < BLOCK_SIZE && !Covers(x.reqs, i, y) ==> s'.blocks[x.block][y] == s.blocks[x.block][y])
  }

  /**
   In every reachable state a write lands in a block its own call holds, never in one already given
   back, and changes no byte outside the slot of the request being copied.
   */
  lemma WritesStayInside(cfg: Config, steps: seq<Step>, step: Step)
    requires Legal(cfg, steps) && Enabled(cfg, Final(cfg, steps), step) && Writes(step)
    ensures var s := Final(cfg, steps);
            StaysInside(s, Apply(cfg, s, step), s.gets[step.g], step.g, WrittenEntry(s, step))
  {
    RunsAreSafe(cfg, steps);
    var s := Final(cfg, steps);
    WriterHolds(cfg, s.gets[step.g], step.k);
    WriteFrame(cfg, s, step);
  }

  /**
   No block has two owners: calls holding blocks hold different ones, and none of those is in a pool, nor is
   any twice.
   */
  lemma BlocksHaveOneOwner(cfg: Config, steps: seq<Step>)
    requires Legal(cfg, steps)
    ensures Ownership(Final(cfg, steps))
  {
    RunsAreSafe(cfg, steps);
  }

  /** A failed call's block never reaches a pool again. */
  lemma FailedBlockStaysOut(cfg: Config, steps: seq<Step>, step: Step, g: nat)
    requires Legal(cfg, steps) && Enabled(cfg, Final(cfg, steps), step)
    requires g < |Final(cfg, steps).gets|
    requires Final(cfg, steps).gets[g].phase.Returned? && Final(cfg, steps).gets[g].phase.status != 0
    ensures var s, s' := Final(cfg, steps), Apply(cfg, Final(cfg, steps), step);
            && g < |s'.gets| && s'.gets[g].phase == s.gets[g].phase && s'.gets[g].block == s.gets[g].block
            && (forall p: nat, a: nat :: InPool(s', p, a) ==> s'.free[p][a] != s.gets[g].block)
  {
    RunsAreSafe(cfg, steps);
    var s := Final(cfg, steps);
    StepSafe(cfg, s, step);
    CallContinues(cfg, s, step, g);
  }

  // ----- completion accounting

  /**
   In every reachable state: the finished count is the number of requests in finished tasks and never
   passes the number of requests; `finish` holds only when every request has been copied; `finish` and
   `faild` exclude each other; and a call for another node's task never fails.
   */
  lemma CountsAreExact(cfg: Config, steps: seq<Step>, g: nat)
    requires Legal(cfg, steps) && g < |Final(cfg, steps).gets|
    ensures ExactCounts(Final(cfg, steps).gets[g])
  {
    RunsAreSafe(cfg, steps);
    GetCountsExact(cfg, Final(cfg, steps).gets[g]);
  }

  ghost predicate ExactCounts(x: Get)
  {
    && x.finishNum == DoneSum(x.tasks) <= |x.reqs|
    && !(x.finish && x.faild)
    && (x.faild ==> x.parent.None?)
    && (x.finish ==> x.finishNum == |x.reqs|)
    && (x.finish ==> forall k :: 0 <= k < |x.tasks| ==> Settled(x.tasks[k]))
  }

  lemma GetCountsExact(cfg: Config, x: Get)
    requires GetOk(cfg, x)
    ensures ExactCounts(x)
  {
    if Started(x) {
      FinishMeansAllDone(cfg, x);
    }
    if x.faild {
      OnlyClientsFail(cfg, x);
    }
  }

  // ----- handlers

  /** Node `i` serves a live, loaded handler of its own, listed under the handler's own name. */
  ghost predicate ServesLoaded(s: State, i: nat)
    requires i < |s.nodes|
  {
    s.nodes[i].current.Some? ==>
      var h := s.nodes[i].current.value;
      && h < |s.handlers| && s.handlers[h].loaded && !s.handlers[h].gone && s.handlers[h].node == i
      && s.handlers[h].name in s.nodes[i].table && s.nodes[i].table[s.handlers[h].name] == h
  }

  /** A running call holds a live handler of the model it captured, loaded if it is a client's call. */
  ghost predicate HoldsLive(s: State, g: nat)
    requires g < |s.gets|
  {
    var x := s.gets[g];
    Active(x) ==>
      && x.handler < |s.handlers| && !s.handlers[x.handler].gone
      && s.handlers[x.handler].name == x.name
      && (x.parent.None? ==> s.handlers[x.handler].loaded)
  }

  /** Over every run, with rollbacks and overlapping cleanups. */
  lemma HandlersStayLoaded(cfg: Config, steps: seq<Step>)
    requires Legal(cfg, steps)
    ensures var s := Final(cfg, steps);
            && (forall i :: 0 <= i < |s.nodes| ==> ServesLoaded(s, i))
            && (forall g :: 0 <= g < |s.gets| ==> HoldsLive(s, g))
  {
    RunsAreSafe(cfg, steps);
    var s := Final(cfg, steps);
    forall i | 0 <= i < |s.nodes|
      ensures ServesLoaded(s, i)
    {
      assert NodeOk(cfg, s, i);
    }
    forall g | 0 <= g < |s.gets|
      ensures HoldsLive(s, g)
    {
      assert Linked(cfg, s, g);
    }
  }

  lemma OnlySwitchesTouchHandlers(cfg: Config, s: State, step: Step)
    requires Enabled(cfg, s, step) && !step.Publish? && !step.Cleanup? && !step.Destroy?
    ensures Apply(cfg, s, step).handlers == s.handlers
  {
    if Actor(step).Some? {
      ActorKeepsNodes(cfg, s, step);
    }
  }

  /**
   No step, cleanup and rollback included, unloads or destroys a handler that is current or held by a running
   call.
   */
  lemma HeldHandlersSurvive(cfg: Config, steps: seq<Step>, step: Step, h: nat)
    requires Legal(cfg, steps) && Enabled(cfg, Final(cfg, steps), step)
    requires h < |Final(cfg, steps).handlers|
    requires var s := Final(cfg, steps);
             !Unheld(s, h) || exists i :: 0 <= i < |s.nodes| && s.nodes[i].current == Some(h)
    ensures var s, s' := Final(cfg, steps), Apply(cfg, Final(cfg, steps), step);
            h < |s'.handlers| && s'.handlers[h] == s.handlers[h]
  {
    RunsAreSafe(cfg, steps);
    StepKeepsHeld(cfg, Final(cfg, steps), step, h);
  }

  lemma StepKeepsHeld(cfg: Config, s: State, step: Step, h: nat)
    requires Safe(cfg, s) && Enabled(cfg, s, step) && h < |s.handlers|
    requires !Unheld(s, h) || exists i :: 0 <= i < |s.nodes| && s.nodes[i].current == Some(h)
    ensures var s' := Apply(cfg, s, step); h < |s'.handlers| && s'.handlers[h] == s.handlers[h]
  {
    if step.Cleanup? {
      NotIdle(cfg, s, step.node, h);
    } else if !step.Publish? && !step.Destroy? {
      OnlySwitchesTouchHandlers(cfg, s, step);
    }
  }

  lemma NotIdle(cfg: Config, s: State, node: nat, h: nat)
    requires Safe(cfg, s) && node < |s.nodes|
    requires !Unheld(s, h) || exists i :: 0 <= i < |s.nodes| && s.nodes[i].current == Some(h)
    ensures !Idle(s, node, h)
  {
    if Unheld(s, h) {
      var i :| 0 <= i < |s.nodes| && s.nodes[i].current == Some(h);
      assert NodeOk(cfg, s, i) && NodeOk(cfg, s, node);
    }
  }

  // ----- every call can have its answer

  /**
   A client's running call of which nothing was lost can always be brought to the plain loop's answer:
   unless it is starved, with no stranded slices, and the requests of its node's clients going to nodes
   that list their models.
   */
  lemma CallsCanBeAnswered(cfg: Config, steps: seq<Step>, slices: nat, g: nat) returns (more: seq<Step>)
    requires IntSized(cfg) && SameSliceCount(cfg, slices) && slices % cfg.nodes < slices / cfg.nodes
    requires Legal(cfg, steps) && g < |Final(cfg, steps).gets|
    requires var s := Final(cfg, steps);
             && CalmRun(cfg, steps, s.gets[g].node) && Sheltered(cfg, s, s.gets[g].node)
             && PoolReach(cfg, s, PoolOf(s.gets[g])) && !Starved(s, g)
    requires var x := Final(cfg, steps).gets[g];
             && x.parent.None? && Unfailed(x) && x.name in cfg.files
             && forall i :: 0 <= i < |x.reqs| ==> InFile(cfg.files[x.name], x.reqs[i])
    ensures Lossless(more) && Legal(cfg, steps + more) && Succeeded(Final(cfg, steps + more), g)
    ensures var x := Final(cfg, steps).gets[g];
            Final(cfg, steps + more).gets[g].phase.data == SequentialReads(cfg.files[x.name], x.reqs)
  {
    more := CalmFinish(cfg, steps, g, Final(cfg, steps).gets[g].node);
    GetRefinesPlainLoop(cfg, steps + more, slices, g);
  }
}
