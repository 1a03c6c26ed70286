/**
 What the bytes are: every answer a client gets holds the file bytes of the one model its `Get`
 captured, as long as the readers of its node are `Sheltered`.
 */
module ClusterReads {
  import opened Bytes
  import opened Requests
  import opened Cluster
  import opened ClusterSafety
  import opened ClusterCalls
  import opened ClusterFlow
  import opened ClusterProgress
  import opened ClusterRoutes

  // ----- the premise

  /** Node `j` lists model `m`, and its copy is unloaded. */
  ghost predicate Unloaded(s: State, j: nat, m: Name)
  {
    && j < |s.nodes| && m in s.nodes[j].table && s.nodes[j].table[m] < |s.handlers|
    && !s.handlers[s.nodes[j].table[m]].loaded
  }

  /** Node `j`, with its share of `m` loaded, has at least one byte to answer this request with. */
  predicate Fruitful(cfg: Config, m: Name, j: nat, req: SliceRequest)
  {
    Asks(cfg, m, req) && HasSlice(cfg, m, j, req.partition)
  }

  /** A new call at node `i`, which serves `m`, would send this request to a node whose copy is unloaded. */
  ghost predicate NodeExposed(cfg: Config, s: State, i: nat, j: nat, m: Name, req: SliceRequest)
  {
    NodeSends(cfg, s, i, j, m, req) && HasSlice(cfg, m, j, req.partition) && Unloaded(s, j, m)
  }

  /** Request `r` of a client's running call goes to a node whose copy is unloaded, and is not there yet. */
  ghost predicate CallExposed(cfg: Config, s: State, g: nat, r: nat, j: nat)
  {
    && CallSends(cfg, s, g, r, j) && HasSlice(cfg, s.gets[g].name, j, s.gets[g].reqs[r].partition)
    && j != s.gets[g].node && Unloaded(s, j, s.gets[g].name)
  }

  /** No request of node `i`'s clients, running or new, is on its way to a node that has unloaded its model. */
  ghost predicate Sheltered(cfg: Config, s: State, i: nat)
  {
    && (forall j: nat, m, req :: !NodeExposed(cfg, s, i, j, m, req))
    && (forall g: nat, r: nat, j: nat :: g < |s.gets| && s.gets[g].node == i ==> !CallExposed(cfg, s, g, r, j))
  }

  /** The premise on a run: node `i`'s readers were sheltered before each step. */
  ghost predicate CalmRun(cfg: Config, steps: seq<Step>, i: nat)
    requires Legal(cfg, steps)
    decreases |steps|
  {
    steps == [] ||
    var n := |steps| - 1;
    CalmRun(cfg, steps[..n], i) && Sheltered(cfg, Final(cfg, steps[..n]), i)
  }

  // ----- the invariant

  /** A call whose answer can still reach a client of node `i` reads from a loaded handler, or has nothing to read. */
  ghost predicate HandlerRight(cfg: Config, s: State, i: nat, g: nat)
    requires g < |s.gets|
  {
    var x := s.gets[g];
    Followed(Untrapped(i), s, g) ==>
      && x.handler < |s.handlers|
      && (s.handlers[x.handler].loaded || forall r :: 0 <= r < |x.reqs| ==> !Fruitful(cfg, x.name, x.node, x.reqs[r]))
  }

  ghost predicate Truth(cfg: Config, s: State, i: nat)
  {
    && Rights(cfg, Untrapped(i), s)
    && forall g :: 0 <= g < |s.gets| ==> HandlerRight(cfg, s, i, g)
  }

  // ----- every copy is right

  lemma ReadsAreRight(cfg: Config, s: State, step: Step, i: nat)
    requires Safe(cfg, s) && Truth(cfg, s, i) && Enabled(cfg, s, step)
    ensures Suits(cfg, Untrapped(i), s, step)
  {
    if step.ReadOne? && Followed(Untrapped(i), s, step.g) {
      assert HandlerRight(cfg, s, i, step.g);
      ReadIsRight(cfg, s, step.g, step.k, step.bytes, i);
    }
  }

  lemma ReadIsRight(cfg: Config, s: State, g: nat, k: nat, bytes: seq<Byte>, i: nat)
    requires Safe(cfg, s) && Enabled(cfg, s, ReadOne(g, k, bytes))
    requires HandlerRight(cfg, s, i, g) && Followed(Untrapped(i), s, g)
    ensures var x := s.gets[g]; EntryRight(cfg, Untrapped(i), x, x.tasks[k].ix[x.tasks[k].stage.done], bytes)
  {
    var x := s.gets[g];
    assert Linked(cfg, s, g);
    StageKnown(cfg, s, g, k);
    ServerOfEntry(cfg, x, k, x.tasks[k].stage.done);
    var req := x.reqs[x.tasks[k].ix[x.tasks[k].stage.done]];
    assert Servable(cfg, x.name) by {
      assert GetOk(cfg, x);
    }
    if Inside(cfg, x.name, req) && HasSlice(cfg, x.name, x.node, req.partition) && !s.handlers[x.handler].loaded {
      assert !Fruitful(cfg, x.name, x.node, req);
      assert bytes == [] == FileBytes(cfg, x.name, req);
    }
  }

  // ----- every handler is right

  lemma HandlersKept(cfg: Config, s: State, step: Step, i: nat)
    requires Safe(cfg, s) && Truth(cfg, s, i) && Sheltered(cfg, s, i) && Enabled(cfg, s, step)
    ensures var s' := Apply(cfg, s, step); forall g :: 0 <= g < |s'.gets| ==> HandlerRight(cfg, s', i, g)
  {
    var s' := Apply(cfg, s, step);
    StepContinues(cfg, s, step);
    forall g | 0 <= g < |s'.gets|
      ensures HandlerRight(cfg, s', i, g)
    {
      if Followed(Untrapped(i), s', g) {
        if Actor(step).Some? {
          FollowedAfter(Untrapped(i), cfg, s, step, g);
          ActorHandler(cfg, s, step, i, g);
        } else {
          RestHandler(cfg, s, step, i, g);
        }
      }
    }
  }

  lemma ActorHandler(cfg: Config, s: State, step: Step, i: nat, g: nat)
    requires Safe(cfg, s) && Truth(cfg, s, i) && Sheltered(cfg, s, i) && Enabled(cfg, s, step) && Actor(step).Some?
    requires g < |Apply(cfg, s, step).gets|
    requires if g < |s.gets| then Followed(Untrapped(i), s, g)
             else step.Deliver? && g == |s.gets| && Followed(Untrapped(i), s, step.g)
    ensures HandlerRight(cfg, Apply(cfg, s, step), i, g)
  {
    if g < |s.gets| {
      ActorKeepsNodes(cfg, s, step);
      CallContinues(cfg, s, step, g);
      assert HandlerRight(cfg, s, i, g);
    } else {
      ChildHandler(cfg, s, step.g, step.k, i);
    }
  }

  lemma RestHandler(cfg: Config, s: State, step: Step, i: nat, g: nat)
    requires Safe(cfg, s) && Truth(cfg, s, i) && Enabled(cfg, s, step) && Actor(step).None?
    requires g < |Apply(cfg, s, step).gets|
    ensures HandlerRight(cfg, Apply(cfg, s, step), i, g)
  {
    StepContinues(cfg, s, step);
    if step.Capture? {
      CaptureHandler(cfg, s, step.node, step.reqs, i, g);
    } else {
      assert HandlerRight(cfg, s, i, g);
      SwitchHandler(cfg, s, step, i, g);
    }
  }

  /** While its client still waits, a call for a task starts on a loaded handler, or has nothing to read. */
  lemma ChildHandler(cfg: Config, s: State, g: nat, k: nat, i: nat)
    requires Safe(cfg, s) && Sheltered(cfg, s, i) && Enabled(cfg, s, Deliver(g, k)) && Followed(Untrapped(i), s, g)
    ensures HandlerRight(cfg, Apply(cfg, s, Deliver(g, k)), i, |s.gets|)
  {
    var s' := Apply(cfg, s, Deliver(g, k));
    var x, y := s.gets[g], s'.gets[|s.gets|];
    DeliverJoins(cfg, s, g, k);
    DeliverCall(cfg, s, g, k);
    StageKnown(cfg, s, g, k);
    assert NodeOk(cfg, s, k);
    if !s.handlers[y.handler].loaded {
      forall c | 0 <= c < |y.reqs|
        ensures !Fruitful(cfg, y.name, y.node, y.reqs[c])
      {
        EntryUnexposed(cfg, s, g, k, c, i);
      }
    }
  }

  /** In a sheltered state, no entry of a task on its way to a node with an unloaded copy needs that copy. */
  lemma EntryUnexposed(cfg: Config, s: State, g: nat, k: nat, c: nat, i: nat)
    requires Safe(cfg, s) && Sheltered(cfg, s, i) && HasTask(s, g, k) && s.gets[g].tasks[k].stage.Sent?
    requires s.gets[g].parent.None? && Healthy(s.gets[g]) && s.gets[g].node == i && k != i
    requires TaskIndexed(s.gets[g], k) && c < |s.gets[g].tasks[k].ix| && Unloaded(s, k, s.gets[g].name)
    ensures !Fruitful(cfg, s.gets[g].name, k, ToWire(Entries(s.gets[g].reqs, s.gets[g].tasks[k].ix))[c])
  {
    var x := s.gets[g];
    assert GetOk(cfg, x);
    StartedIndices(cfg, x, k);
    var r := x.tasks[k].ix[c];
    IndicesMember(x.route, k, r);
    WireFruit(cfg, x, k, c, k);
    assert !CallExposed(cfg, s, g, r, k);
  }

  /** An entry sent on asks for the same bytes as the request it comes from. */
  lemma WireFruit(cfg: Config, x: Get, k: nat, c: nat, j: nat)
    requires TaskIndexed(x, k) && c < |x.tasks[k].ix| && Admissible(x.reqs)
    ensures Fruitful(cfg, x.name, j, ToWire(Entries(x.reqs, x.tasks[k].ix))[c]) ==>
              Fruitful(cfg, x.name, j, x.reqs[x.tasks[k].ix[c]])
  {
    var req := x.reqs[x.tasks[k].ix[c]];
    NarrowFixed(req.start);
    NarrowFixed(req.len);
    NarrowFixed(req.partition);
  }

  lemma CaptureHandler(cfg: Config, s: State, node: nat, reqs: seq<SliceRequest>, i: nat, g: nat)
    requires Safe(cfg, s) && Truth(cfg, s, i) && Enabled(cfg, s, Capture(node, reqs)) && g <= |s.gets|
    ensures HandlerRight(cfg, Apply(cfg, s, Capture(node, reqs)), i, g)
  {
    var s' := Apply(cfg, s, Capture(node, reqs));
    CaptureStarts(cfg, s, node, reqs);
    if g < |s.gets| {
      assert HandlerRight(cfg, s, i, g) && Linked(cfg, s, g);
      if s.gets[g].parent.Some? {
        assert ParentOk(s, g);
      }
      assert Followed(Untrapped(i), s', g) ==> Followed(Untrapped(i), s, g);
    } else {
      assert NodeOk(cfg, s, node);
    }
  }

  /** Installing, unloading and destroying touch no handler a running call holds. */
  lemma SwitchHandler(cfg: Config, s: State, step: Step, i: nat, g: nat)
    requires Safe(cfg, s) && Enabled(cfg, s, step) && Switches(step)
    requires g < |s.gets| == |Apply(cfg, s, step).gets| && HandlerRight(cfg, s, i, g)
    ensures HandlerRight(cfg, Apply(cfg, s, step), i, g)
  {
    SwitchTrusted(cfg, s, step, g);
    if Followed(Untrapped(i), Apply(cfg, s, step), g) {
      SwitchContinues(cfg, s, step);
      HeldKept(cfg, s, step, s.gets[g].handler);
    }
  }

  lemma HeldKept(cfg: Config, s: State, step: Step, h: nat)
    requires Enabled(cfg, s, step) && Switches(step) && h < |s.handlers| && !Unheld(s, h)
    ensures h < |Apply(cfg, s, step).handlers| && Apply(cfg, s, step).handlers[h].loaded == s.handlers[h].loaded
  {
  }

  // ----- shelter is only lost by a switch

  /** No copy gets unloaded while models are neither installed nor cleaned up. */
  lemma QuietUnloaded(cfg: Config, s: State, step: Step, j: nat, m: Name)
    requires Enabled(cfg, s, step) && Quiet(step)
    ensures Unloaded(Apply(cfg, s, step), j, m) ==> Unloaded(s, j, m)
  {
    var s' := Apply(cfg, s, step);
    RoutesKept(cfg, s, step);
    if Actor(step).Some? {
      ActorKeepsNodes(cfg, s, step);
    } else if step.Destroy? && Unloaded(s', j, m) {
      assert s.nodes[j].table[m] != step.h;
    }
  }

  /** Only storing a route, installing a model or unloading one can expose a reader. */
  lemma ShelterKept(cfg: Config, s: State, step: Step, i: nat)
    requires Sound(cfg, s) && Sheltered(cfg, s, i) && Enabled(cfg, s, step) && Quiet(step)
    ensures Sheltered(cfg, Apply(cfg, s, step), i)
  {
    var s' := Apply(cfg, s, step);
    forall j: nat, m, req | NodeExposed(cfg, s', i, j, m, req)
      ensures false
    {
      NodeSentBefore(cfg, s, step, i, j, m, req);
      QuietUnloaded(cfg, s, step, j, m);
      assert NodeExposed(cfg, s, i, j, m, req);
    }
    forall g: nat, r: nat, j: nat | g < |s'.gets| && s'.gets[g].node == i && CallExposed(cfg, s', g, r, j)
      ensures false
    {
      CallSheltered(cfg, s, step, i, g, r, j);
    }
  }

  lemma CallSheltered(cfg: Config, s: State, step: Step, i: nat, g: nat, r: nat, j: nat)
    requires Sound(cfg, s) && Sheltered(cfg, s, i) && Enabled(cfg, s, step) && Quiet(step)
    requires g < |Apply(cfg, s, step).gets| && Apply(cfg, s, step).gets[g].node == i
    ensures !CallExposed(cfg, Apply(cfg, s, step), g, r, j)
  {
    var s' := Apply(cfg, s, step);
    if CallExposed(cfg, s', g, r, j) {
      QuietUnloaded(cfg, s, step, j, s'.gets[g].name);
      if g < |s.gets| {
        CallSentBefore(cfg, s, step, g, r, j);
        assert CallExposed(cfg, s, g, r, j);
      } else {
        StepContinues(cfg, s, step);
        JoinsAsChild(cfg, s, step);
        NewCallSends(cfg, s, step.node, step.reqs, r, j);
        assert NodeExposed(cfg, s, i, j, s'.gets[g].name, step.reqs[r]);
      }
    }
  }

  // ----- all runs

  lemma TruthStep(cfg: Config, s: State, step: Step, i: nat)
    requires Safe(cfg, s) && Truth(cfg, s, i) && Sheltered(cfg, s, i) && Enabled(cfg, s, step)
    ensures Truth(cfg, Apply(cfg, s, step), i)
  {
    ReadsAreRight(cfg, s, step, i);
    StepFlow(cfg, Untrapped(i), s, step);
    HandlersKept(cfg, s, step, i);
  }

  /**
   In a run in which a node's readers were sheltered, every entry copied, every reply and every answer for a
   call of its clients holds the right bytes.
   */
  lemma {:induction false} RunsAreTrue(cfg: Config, steps: seq<Step>, i: nat)
    requires Legal(cfg, steps) && CalmRun(cfg, steps, i)
    ensures Truth(cfg, Final(cfg, steps), i)
  {
    if steps != [] {
      var n := |steps| - 1;
      RunsAreSafe(cfg, steps[..n]);
      RunsAreTrue(cfg, steps[..n], i);
      TruthStep(cfg, Final(cfg, steps[..n]), steps[n], i);
    }
  }

  /** Calls alone never cost the readers their shelter. */
  lemma {:induction false} QuietStaysCalm(cfg: Config, steps: seq<Step>, more: seq<Step>, i: nat)
    requires Legal(cfg, steps) && CalmRun(cfg, steps, i) && Sheltered(cfg, Final(cfg, steps), i)
    requires Legal(cfg, steps + more) && forall k :: 0 <= k < |more| ==> Quiet(more[k])
    ensures CalmRun(cfg, steps + more, i) && Sheltered(cfg, Final(cfg, steps + more), i)
  {
    if more == [] {
      assert steps + more == steps;
    } else {
      LastOfMore(cfg, steps, more);
      QuietStaysCalm(cfg, steps, more[..|more| - 1], i);
      CalmLonger(cfg, steps + more[..|more| - 1], more[|more| - 1], i);
    }
  }

  lemma CalmLonger(cfg: Config, steps: seq<Step>, step: Step, i: nat)
    requires Legal(cfg, steps) && Enabled(cfg, Final(cfg, steps), step) && Quiet(step)
    requires CalmRun(cfg, steps, i) && Sheltered(cfg, Final(cfg, steps), i)
    ensures Legal(cfg, steps + [step]) && CalmRun(cfg, steps + [step], i)
    ensures Sheltered(cfg, Final(cfg, steps + [step]), i)
  {
    assert (steps + [step])[..|steps|] == steps;
    AddStep(cfg, steps, step);
    RunsAreSound(cfg, steps);
    ShelterKept(cfg, Final(cfg, steps), step, i);
  }

  /** A sheltered call that is not starved comes to its end in a calm run. */
  lemma CalmFinish(cfg: Config, steps: seq<Step>, g: nat, i: nat) returns (more: seq<Step>)
    requires Legal(cfg, steps) && CalmRun(cfg, steps, i) && Sheltered(cfg, Final(cfg, steps), i)
    requires var s := Final(cfg, steps); g < |s.gets| && PoolReach(cfg, s, PoolOf(s.gets[g])) && !Starved(s, g)
    ensures Lossless(more) && Legal(cfg, steps + more) && CalmRun(cfg, steps + more, i)
    ensures g < |Final(cfg, steps + more).gets|
    ensures Continues(Final(cfg, steps).gets[g], Final(cfg, steps + more).gets[g])
    ensures var y := Final(cfg, steps + more).gets[g];
            y.phase.Returned? && (Unfailed(Final(cfg, steps).gets[g]) ==> y.phase.status == 0)
  {
    more := PlainFinish(cfg, steps, g);
    LosslessQuiet(more);
    QuietStaysCalm(cfg, steps, more, i);
  }
}
