/**
 The premises of the byte results are exact: wherever a request goes to a node that cannot give it its
 bytes, a client can get status 0 with bytes that are not the file's.
 */
module ClusterExposure {
  import opened Bytes
  import opened Requests
  import opened Cluster
  import opened ClusterSafety
  import opened ClusterCalls
  import opened ClusterPools
  import opened ClusterFlow
  import opened ClusterProgress
  import opened ClusterRoutes
  import opened ClusterReads
  import opened ClusterTheorems

  // ----- lost requests

  /** A request of a new call at node `i` would go to a node that has unloaded the model or has not its slice. */
  ghost predicate NodeLost(cfg: Config, s: State, i: nat, j: nat, m: Name, req: SliceRequest)
  {
    NodeExposed(cfg, s, i, j, m, req) || NodeMisrouted(cfg, s, i, j, m, req)
  }

  ghost predicate CallLost(cfg: Config, s: State, g: nat, r: nat, j: nat)
  {
    CallExposed(cfg, s, g, r, j) || CallMisrouted(cfg, s, g, r, j)
  }

  /** The view that follows call `g` and takes the slice of request `r` for another one. */
  function TrapView(s: State, g: nat, r: nat, j: nat): (v: View)
    requires g < |s.gets| && r < |s.gets[g].reqs|
  {
    View(ThisCall(g), Some(Trap(s.gets[g].name, j, s.gets[g].reqs[r].partition)))
  }

  /** An answer with status 0 that does not hold the bytes of the file. */
  predicate Wrong(cfg: Config, x: Get, r: nat, j: nat)
  {
    && x.parent.None? && x.phase.Returned? && x.phase.status == 0
    && r < |x.reqs| == |x.route| && r < |x.phase.data| && x.route[r] == j
    && Inside(cfg, x.name, x.reqs[r]) && x.phase.data[r] != FileBytes(cfg, x.name, x.reqs[r])
  }

  /** Calls that serve a call's tasks run where those tasks were delivered, so not where one is still awaited. */
  lemma FollowedElsewhere(cfg: Config, s: State, g: nat, r: nat, j: nat, c: nat)
    requires Sound(cfg, s) && CallSends(cfg, s, g, r, j) && c < |s.gets|
    requires Followed(TrapView(s, g, r, j), s, c)
    ensures s.gets[c].handler < |s.handlers| && s.gets[c].name == s.gets[g].name
    ensures c == g || s.gets[c].node != j
  {
    assert Linked(cfg, s, c);
    if s.gets[c].parent.Some? {
      assert ParentOk(s, c);
    }
  }

  lemma TrapCompatible(cfg: Config, s: State, g: nat, r: nat, j: nat)
    requires Sound(cfg, s) && CallLost(cfg, s, g, r, j)
    ensures Compatible(cfg, TrapView(s, g, r, j), s)
  {
    var v := TrapView(s, g, r, j);
    forall c | 0 <= c < |s.gets|
      ensures CallCompatible(cfg, v, s, c)
    {
      if Followed(v, s, c) {
        FollowedElsewhere(cfg, s, g, r, j, c);
        forall k | 0 <= k < |s.nodes| && Finds(s, k, s.gets[c].name)
          ensures Open(cfg, v, s.gets[c].name, k)
        {
        }
      }
    }
  }

  // ----- nothing lost has been copied yet

  lemma TrapRight(cfg: Config, s: State, g: nat, r: nat, j: nat)
    requires Sound(cfg, s) && CallSends(cfg, s, g, r, j)
    ensures Rights(cfg, TrapView(s, g, r, j), s)
  {
    var v := TrapView(s, g, r, j);
    forall c | 0 <= c < |s.gets|
      ensures GetRight(cfg, v, s, c)
    {
      if Followed(v, s, c) {
        FollowedElsewhere(cfg, s, g, r, j, c);
        forall k | 0 <= k < |s.gets[c].tasks|
          ensures TaskRight(cfg, v, s.gets[c], Memory(s, s.gets[c]), k)
        {
          TrapTask(cfg, s, g, r, j, c, k);
        }
      }
    }
  }

  /** Only what node `j` answers can fall into the trap, and the task for it has copied nothing. */
  lemma TrapTask(cfg: Config, s: State, g: nat, r: nat, j: nat, c: nat, k: nat)
    requires Sound(cfg, s) && CallSends(cfg, s, g, r, j) && c < |s.gets| && k < |s.gets[c].tasks|
    requires Active(s.gets[c]) && (c == g || (s.gets[c].parent.Some? && s.gets[c].node != j))
    ensures TaskRight(cfg, TrapView(s, g, r, j), s.gets[c], Memory(s, s.gets[c]), k)
  {
    var v, x := TrapView(s, g, r, j), s.gets[c];
    StageKnown(cfg, s, c, k);
    if c == g && k == j {
      assert Progress(x.tasks[k]) == 0 && !x.tasks[k].stage.Replied?;
    } else {
      forall d | 0 <= d < |x.tasks[k].ix|
        ensures SlotRight(cfg, v, x, Memory(s, x), x.tasks[k].ix[d])
        ensures x.tasks[k].stage.Replied? && d < |x.tasks[k].stage.data| ==>
                  EntryRight(cfg, v, x, x.tasks[k].ix[d], x.tasks[k].stage.data[d])
      {
        UntrappedEntry(cfg, s, v, c, k, d);
      }
    }
  }

  /** An entry that some other node answers has only its length to be right about. */
  lemma UntrappedEntry(cfg: Config, s: State, v: View, c: nat, k: nat, d: nat)
    requires Safe(cfg, s) && c < |s.gets| && k < |s.gets[c].tasks| && d < |s.gets[c].tasks[k].ix|
    requires Active(s.gets[c]) && v.trap.Some?
    requires (if s.gets[c].parent.Some? then s.gets[c].node else k) != v.trap.value.node
    ensures var x, i := s.gets[c], s.gets[c].tasks[k].ix[d];
            && SlotRight(cfg, v, x, Memory(s, x), i)
            && (x.tasks[k].stage.Replied? && d < |x.tasks[k].stage.data| ==>
                  EntryRight(cfg, v, x, i, x.tasks[k].stage.data[d]))
  {
    var x := s.gets[c];
    StageKnown(cfg, s, c, k);
    assert GetOk(cfg, x);
    ServerOfEntry(cfg, x, k, d);
    PosInside(x.reqs, x.tasks[k].ix[d]);
  }

  // ----- and so the call goes wrong

  /** Driven to its end with the slice taken for another one, the call returns a wrong answer. */
  lemma TrapSprings(cfg: Config, steps: seq<Step>, g: nat, r: nat, j: nat) returns (more: seq<Step>)
    requires Legal(cfg, steps) && CallLost(cfg, Final(cfg, steps), g, r, j)
    requires PoolReach(cfg, Final(cfg, steps), PoolOf(Final(cfg, steps).gets[g]))
    ensures Lossless(more) && Legal(cfg, steps + more)
    ensures g < |Final(cfg, steps + more).gets| && Wrong(cfg, Final(cfg, steps + more).gets[g], r, j)
    ensures Continues(Final(cfg, steps).gets[g], Final(cfg, steps + more).gets[g])
  {
    var s := Final(cfg, steps);
    RunsAreSound(cfg, steps);
    TrapRight(cfg, s, g, r, j);
    TrapCompatible(cfg, s, g, r, j);
    more := CanFinish(cfg, TrapView(s, g, r, j), steps, g);
    RunsAreSound(cfg, steps + more);
    AnswerIsWrong(cfg, s, Final(cfg, steps + more), g, r, j);
  }

  lemma AnswerIsWrong(cfg: Config, s: State, s': State, g: nat, r: nat, j: nat)
    requires CallSends(cfg, s, g, r, j) && Sound(cfg, s')
    requires var v := TrapView(s, g, r, j); GoesOn(cfg, v, s, s', g) && Rights(cfg, v, s')
    requires s'.gets[g].phase.Returned?
    ensures Wrong(cfg, s'.gets[g], r, j)
  {
    var v := TrapView(s, g, r, j);
    var y := s'.gets[g];
    assert GetOk(cfg, y) && GetRight(cfg, v, s', g);
    assert GoesTo(cfg, s', y, r, j);
    assert EntryRight(cfg, v, y, r, y.phase.data[r]);
    var file := FileBytes(cfg, y.name, y.reqs[r]);
    assert Flipped(file)[0] != file[0];
  }

  /** The further steps neither install nor unload a model, and `g` ends with status 0 and a wrong answer. */
  ghost predicate GoesWrong(cfg: Config, steps: seq<Step>, more: seq<Step>, g: nat, r: nat, j: nat)
  {
    && Legal(cfg, steps + more) && (forall k :: 0 <= k < |more| ==> Quiet(more[k]))
    && g < |Final(cfg, steps + more).gets| && Wrong(cfg, Final(cfg, steps + more).gets[g], r, j)
  }

  /**
   From any reachable state in which the requests of its node's clients go to nodes that list their models: a
   running call, of which nothing was lost and with a request on its way to a node that has not the bytes for
   it, can be brought to status 0 with a wrong answer.
   */
  lemma LostCallGoesWrong(cfg: Config, steps: seq<Step>, g: nat, r: nat, j: nat) returns (more: seq<Step>)
    requires Legal(cfg, steps) && CallLost(cfg, Final(cfg, steps), g, r, j)
    requires PoolReach(cfg, Final(cfg, steps), PoolOf(Final(cfg, steps).gets[g]))
    ensures GoesWrong(cfg, steps, more, g, r, j)
    ensures Continues(Final(cfg, steps).gets[g], Final(cfg, steps + more).gets[g])
  {
    more := TrapSprings(cfg, steps, g, r, j);
    LosslessQuiet(more);
  }

  // ----- a new call

  lemma NewCallLost(cfg: Config, s: State, i: nat, j: nat, m: Name, req: SliceRequest)
    requires Sound(cfg, s) && NodeLost(cfg, s, i, j, m, req)
    ensures Enabled(cfg, s, Capture(i, [req]))
    ensures var s' := Apply(cfg, s, Capture(i, [req]));
            |s'.gets| == |s.gets| + 1 && CallLost(cfg, s', |s.gets|, 0, j)
  {
    var s' := Apply(cfg, s, Capture(i, [req]));
    assert NodeOk(cfg, s, i);
    CaptureStarts(cfg, s, i, [req]);
    PoolStaysOpen(cfg, s, i, [req]);
    assert GoesTo(cfg, s', s'.gets[|s.gets|], 0, j);
    assert CallSends(cfg, s', |s.gets|, 0, j);
  }

  /** A call that starts drains no pool. */
  lemma PoolStaysOpen(cfg: Config, s: State, i: nat, reqs: seq<SliceRequest>)
    requires Sound(cfg, s) && Enabled(cfg, s, Capture(i, reqs)) && !Drained(s, 2 * i)
    ensures !Drained(Apply(cfg, s, Capture(i, reqs)), 2 * i)
  {
    StepUndrained(cfg, s, Capture(i, reqs), 2 * i);
  }

  lemma NewCallReaches(cfg: Config, s: State, i: nat, j: nat, m: Name, req: SliceRequest)
    requires PoolReach(cfg, s, 2 * i) && NodeSends(cfg, s, i, j, m, req) && Enabled(cfg, s, Capture(i, [req]))
    ensures PoolReach(cfg, Apply(cfg, s, Capture(i, [req])), 2 * i)
  {
    var s' := Apply(cfg, s, Capture(i, [req]));
    CaptureStarts(cfg, s, i, [req]);
    forall g | 0 <= g < |s'.gets| && Client(s', g) && PoolOf(s'.gets[g]) == 2 * i
      ensures Reaching(cfg, s', g)
    {
      if g < |s.gets| {
        assert Reaching(cfg, s, g);
        assert forall r: nat, k: nat :: GoesTo(cfg, s', s'.gets[g], r, k) <==> GoesTo(cfg, s, s.gets[g], r, k);
      }
    }
  }

  lemma JoinOne(steps: seq<Step>, step: Step, rest: seq<Step>)
    ensures steps + ([step] + rest) == steps + [step] + rest
  {
  }

  /**
   From any reachable state in which the requests of its node's running clients go to nodes that list their
   models: when a node that serves a model would send a request to a node that lists the model but has
   unloaded it, or has not the slice, a new client of the first node can get status 0 and a wrong answer.
   */
  lemma LostNodeGoesWrong(cfg: Config, steps: seq<Step>, i: nat, j: nat, m: Name, req: SliceRequest)
    returns (more: seq<Step>, g: nat)
    requires Legal(cfg, steps) && PoolReach(cfg, Final(cfg, steps), 2 * i)
    requires NodeLost(cfg, Final(cfg, steps), i, j, m, req)
    ensures GoesWrong(cfg, steps, more, g, 0, j)
    ensures var x := Final(cfg, steps + more).gets[g]; x.node == i && x.name == m && x.reqs == [req]
  {
    g := |Final(cfg, steps).gets|;
    CaptureLost(cfg, steps, i, j, m, req);
    var rest := LostCallGoesWrong(cfg, steps + [Capture(i, [req])], g, 0, j);
    JoinOne(steps, Capture(i, [req]), rest);
    more := [Capture(i, [req])] + rest;
  }

  lemma CaptureLost(cfg: Config, steps: seq<Step>, i: nat, j: nat, m: Name, req: SliceRequest)
    requires Legal(cfg, steps) && PoolReach(cfg, Final(cfg, steps), 2 * i)
    requires NodeLost(cfg, Final(cfg, steps), i, j, m, req)
    ensures Legal(cfg, steps + [Capture(i, [req])])
    ensures var g, s' := |Final(cfg, steps).gets|, Final(cfg, steps + [Capture(i, [req])]);
            && CallLost(cfg, s', g, 0, j) && PoolReach(cfg, s', PoolOf(s'.gets[g]))
            && s'.gets[g].node == i && s'.gets[g].name == m && s'.gets[g].reqs == [req]
  {
    var s := Final(cfg, steps);
    RunsAreSound(cfg, steps);
    NewCallLost(cfg, s, i, j, m, req);
    NewCallReaches(cfg, s, i, j, m, req);
    AddStep(cfg, steps, Capture(i, [req]));
  }

  // ----- exactly when

  /** A client's call at node `i` that has returned status 0. */
  predicate HasAnswer(x: Get, i: nat)
  {
    x.parent.None? && x.phase.Returned? && x.phase.status == 0 && x.node == i
  }

  /** All answers of node `i` hold the file's bytes for every range inside a slice. */
  ghost predicate AnswersRight(cfg: Config, s: State, i: nat)
  {
    forall g :: 0 <= g < |s.gets| && HasAnswer(s.gets[g], i) ==> ClientRight(cfg, s.gets[g])
  }

  /** They do wherever the node asked loads the slice. */
  ghost predicate LoadedRight(cfg: Config, s: State, i: nat)
  {
    forall g :: 0 <= g < |s.gets| && HasAnswer(s.gets[g], i) ==> ReturnRight(cfg, Untrapped(i), s.gets[g])
  }

  /** Whatever calls come and go from here on, with no further switch, node `i`'s answers are right. */
  ghost predicate StaysRight(cfg: Config, steps: seq<Step>, i: nat)
  {
    forall more :: Legal(cfg, steps + more) && (forall k :: 0 <= k < |more| ==> Quiet(more[k])) ==>
      AnswersRight(cfg, Final(cfg, steps + more), i)
  }

  ghost predicate StaysLoaded(cfg: Config, steps: seq<Step>, i: nat)
  {
    forall more :: Legal(cfg, steps + more) && (forall k :: 0 <= k < |more| ==> Quiet(more[k])) ==>
      LoadedRight(cfg, Final(cfg, steps + more), i)
  }

  lemma CalmAnswers(cfg: Config, steps: seq<Step>, i: nat)
    requires Legal(cfg, steps) && CalmRun(cfg, steps, i)
    ensures LoadedRight(cfg, Final(cfg, steps), i)
    ensures StraightRun(cfg, steps, i) ==> AnswersRight(cfg, Final(cfg, steps), i)
  {
    var s := Final(cfg, steps);
    RunsAreTrue(cfg, steps, i);
    forall g | 0 <= g < |s.gets| && HasAnswer(s.gets[g], i)
      ensures ReturnRight(cfg, Untrapped(i), s.gets[g])
      ensures StraightRun(cfg, steps, i) ==> ClientRight(cfg, s.gets[g])
    {
      assert GetRight(cfg, Untrapped(i), s, g);
      if StraightRun(cfg, steps, i) {
        StraightAnswers(cfg, steps, g);
      }
    }
  }

  lemma ShelteredStays(cfg: Config, steps: seq<Step>, i: nat)
    requires Legal(cfg, steps) && CalmRun(cfg, steps, i) && Sheltered(cfg, Final(cfg, steps), i)
    ensures StaysLoaded(cfg, steps, i)
  {
    forall more | Legal(cfg, steps + more) && forall k :: 0 <= k < |more| ==> Quiet(more[k])
      ensures LoadedRight(cfg, Final(cfg, steps + more), i)
    {
      QuietStaysCalm(cfg, steps, more, i);
      CalmAnswers(cfg, steps + more, i);
    }
  }

  lemma StraightStays(cfg: Config, steps: seq<Step>, i: nat)
    requires Legal(cfg, steps) && CalmRun(cfg, steps, i) && Sheltered(cfg, Final(cfg, steps), i)
    requires StraightRun(cfg, steps, i) && Straight(cfg, Final(cfg, steps), i)
    ensures StaysRight(cfg, steps, i)
  {
    forall more | Legal(cfg, steps + more) && forall k :: 0 <= k < |more| ==> Quiet(more[k])
      ensures AnswersRight(cfg, Final(cfg, steps + more), i)
    {
      QuietStaysCalm(cfg, steps, more, i);
      QuietStaysStraight(cfg, steps, more, i);
      CalmAnswers(cfg, steps + more, i);
    }
  }

  lemma WrongIsNotRight(cfg: Config, steps: seq<Step>, more: seq<Step>, g: nat, r: nat, j: nat, i: nat)
    requires GoesWrong(cfg, steps, more, g, r, j) && Final(cfg, steps + more).gets[g].node == i
    ensures !StaysRight(cfg, steps, i)
    ensures var x := Final(cfg, steps + more).gets[g];
            HasSlice(cfg, x.name, j, x.reqs[r].partition) ==> !StaysLoaded(cfg, steps, i)
  {
    var x := Final(cfg, steps + more).gets[g];
    assert HasAnswer(x, i);
    assert ReturnRight(cfg, Untrapped(i), x) ==> EntryRight(cfg, Untrapped(i), x, r, x.phase.data[r]);
  }

  lemma LostNodeBreaks(cfg: Config, steps: seq<Step>, i: nat, j: nat, m: Name, req: SliceRequest)
    requires Legal(cfg, steps) && PoolReach(cfg, Final(cfg, steps), 2 * i)
    requires NodeLost(cfg, Final(cfg, steps), i, j, m, req)
    ensures !StaysRight(cfg, steps, i)
    ensures HasSlice(cfg, m, j, req.partition) ==> !StaysLoaded(cfg, steps, i)
  {
    var more, g := LostNodeGoesWrong(cfg, steps, i, j, m, req);
    WrongIsNotRight(cfg, steps, more, g, 0, j, i);
  }

  lemma LostCallBreaks(cfg: Config, steps: seq<Step>, g: nat, r: nat, j: nat, i: nat)
    requires Legal(cfg, steps) && CallLost(cfg, Final(cfg, steps), g, r, j)
    requires Final(cfg, steps).gets[g].node == i && PoolReach(cfg, Final(cfg, steps), 2 * i)
    ensures !StaysRight(cfg, steps, i)
    ensures var x := Final(cfg, steps).gets[g];
            HasSlice(cfg, x.name, j, x.reqs[r].partition) ==> !StaysLoaded(cfg, steps, i)
  {
    var more := LostCallGoesWrong(cfg, steps, g, r, j);
    WrongIsNotRight(cfg, steps, more, g, r, j, i);
  }

  /**
   The premise on unloading is exact. After a run that was calm so far, in which the requests of a node's
   running clients go to nodes that list their models: the node's readers are sheltered if and only if, until
   the next switch, all its answers hold the file's bytes wherever the node asked loads the slice.
   */
  lemma ShelterIsExact(cfg: Config, steps: seq<Step>, i: nat)
    requires Legal(cfg, steps) && CalmRun(cfg, steps, i) && PoolReach(cfg, Final(cfg, steps), 2 * i)
    ensures Sheltered(cfg, Final(cfg, steps), i) <==> StaysLoaded(cfg, steps, i)
  {
    var s := Final(cfg, steps);
    if Sheltered(cfg, s, i) {
      ShelteredStays(cfg, steps, i);
    } else if j: nat, m, req :| NodeExposed(cfg, s, i, j, m, req) {
      LostNodeBreaks(cfg, steps, i, j, m, req);
    } else {
      var g: nat, r: nat, j: nat :| g < |s.gets| && s.gets[g].node == i && CallExposed(cfg, s, g, r, j);
      LostCallBreaks(cfg, steps, g, r, j, i);
    }
  }

  /**
   Exactly when a client can get wrong bytes. After a run that was calm and straight so far, in which the
   requests of a node's running clients go to nodes that list their models: all answers of the node hold the
   file's bytes until the next switch, for every range inside a slice, if and only if its readers are
   sheltered and its requests go straight.
   */
  lemma RightIsExact(cfg: Config, steps: seq<Step>, i: nat)
    requires Legal(cfg, steps) && CalmRun(cfg, steps, i) && StraightRun(cfg, steps, i)
    requires PoolReach(cfg, Final(cfg, steps), 2 * i)
    ensures StaysRight(cfg, steps, i) <==> Sheltered(cfg, Final(cfg, steps), i) && Straight(cfg, Final(cfg, steps), i)
  {
    var s := Final(cfg, steps);
    if Sheltered(cfg, s, i) && Straight(cfg, s, i) {
      StraightStays(cfg, steps, i);
    } else if j: nat, m, req :| NodeLost(cfg, s, i, j, m, req) {
      LostNodeBreaks(cfg, steps, i, j, m, req);
    } else {
      NotExact(cfg, s, i);
      var g: nat, r: nat, j: nat :| g < |s.gets| && s.gets[g].node == i && CallLost(cfg, s, g, r, j);
      LostCallBreaks(cfg, steps, g, r, j, i);
    }
  }

  lemma NotExact(cfg: Config, s: State, i: nat)
    requires !(Sheltered(cfg, s, i) && Straight(cfg, s, i))
    requires forall j: nat, m, req :: !NodeLost(cfg, s, i, j, m, req)
    ensures exists g: nat, r: nat, j: nat :: g < |s.gets| && s.gets[g].node == i && CallLost(cfg, s, g, r, j)
  {
    forall j: nat, m, req
      ensures !NodeExposed(cfg, s, i, j, m, req) && !NodeMisrouted(cfg, s, i, j, m, req)
    {
      assert !NodeLost(cfg, s, i, j, m, req);
    }
    var g: nat, r: nat, j: nat :| g < |s.gets| && s.gets[g].node == i &&
      (CallExposed(cfg, s, g, r, j) || CallMisrouted(cfg, s, g, r, j));
    assert CallLost(cfg, s, g, r, j);
  }

  // ----- which slices lose a node's requests

  /** A byte of a non-empty slice is something to ask for. */
  lemma SliceAsks(cfg: Config, s: State, i: nat, j: nat, m: Name, p: nat) returns (req: SliceRequest)
    requires Servable(cfg, m) && p < |cfg.files[m]| && p < TWO_31 && cfg.files[m][p] != []
    requires Serves(s, i, m) && Sends(cfg, s, i, p, j) && Lists(s, i, j, m) && !Drained(s, 2 * i)
    ensures req == SliceRequest(p, 0, 1) && NodeSends(cfg, s, i, j, m, req)
  {
    req := SliceRequest(p, 0, 1);
    assert Pos([req], 1) == 1;
  }
}
