/**
 Where the bytes of an answer come from: each is what a worker copied for its request, moved by replies
 and gathers to the request's own place. Independent of what the workers find in the slices.
 */
module ClusterFlow {
  import opened Bytes
  import opened Requests
  import opened Cluster
  import opened ClusterSafety

  /** Whose bytes are followed: one client's call, or all calls of the clients of one node. */
  datatype Who = ThisCall(g: nat) | ClientsOf(node: nat)

  /** One slice of a model, read on one node, that is taken for another one with every byte different. */
  datatype Trap = Trap(name: Name, node: nat, partition: nat)

  datatype View = View(who: Who, trap: Option<Trap>)

  function Flipped(bytes: seq<Byte>): (r: seq<Byte>)
    ensures |r| == |bytes| && forall i :: 0 <= i < |bytes| ==> r[i] != bytes[i]
  {
    seq(|bytes|, i requires 0 <= i < |bytes| => if bytes[i] == 0 then 1 else 0)
  }

  /** The request falls into the trap when node `node` answers it. */
  predicate Trapped(t: Trap, m: Name, node: nat, req: SliceRequest)
  {
    m == t.name && node == t.node && req.partition == t.partition
  }

  /**
   What a view expects node `node` to answer: the length asked for and, for a range inside a slice the node
   loads, the file's bytes; or, with a trap, wrong bytes for what falls into it, and any others elsewhere.
   */
  ghost predicate Wants(cfg: Config, v: View, m: Name, node: nat, req: SliceRequest, bytes: seq<Byte>)
  {
    && |bytes| == req.len
    && (Inside(cfg, m, req) ==>
          match v.trap
          case None => HasSlice(cfg, m, node, req.partition) ==> bytes == FileBytes(cfg, m, req)
          case Some(t) => Trapped(t, m, node, req) ==> bytes == Flipped(FileBytes(cfg, m, req)))
  }

  ghost predicate Healthy(x: Get)
  {
    Active(x) && !x.faild
  }

  /** An answer to this call can still reach a client: it runs, and so does the call whose task waits for it. */
  ghost predicate Trusted(s: State, g: nat)
    requires g < |s.gets|
  {
    && Healthy(s.gets[g])
    && (s.gets[g].parent.Some? ==>
          var (p, k) := s.gets[g].parent.value;
          HasTask(s, p, k) && s.gets[p].tasks[k].stage == Serving(g) && Healthy(s.gets[p]))
  }

  /** The client's call this call works for. */
  function Root(s: State, g: nat): (r: nat)
    requires g < |s.gets|
  {
    if s.gets[g].parent.Some? then s.gets[g].parent.value.0 else g
  }

  /** The client's call `g` is one the view is about. */
  ghost predicate Chosen(who: Who, s: State, g: nat)
  {
    match who
    case ThisCall(c) => g == c
    case ClientsOf(i) => g < |s.gets| && s.gets[g].node == i
  }

  ghost predicate Followed(v: View, s: State, g: nat)
    requires g < |s.gets|
  {
    Trusted(s, g) && Chosen(v.who, s, Root(s, g))
  }

  ghost predicate EntryRight(cfg: Config, v: View, x: Get, i: nat, bytes: seq<Byte>)
  {
    i < |x.reqs| && i < |x.route| && Wants(cfg, v, x.name, Server(x, i), x.reqs[i], bytes)
  }

  /** The interval of request `i` in `mem` holds the answer to it. */
  ghost predicate SlotRight(cfg: Config, v: View, x: Get, mem: seq<Byte>, i: nat)
  {
    && i < |x.reqs| && Pos(x.reqs, i) + x.reqs[i].len <= |mem|
    && EntryRight(cfg, v, x, i, Cut(mem, Pos(x.reqs, i), x.reqs[i].len))
  }

  ghost predicate TaskRight(cfg: Config, v: View, x: Get, mem: seq<Byte>, k: nat)
    requires k < |x.tasks|
  {
    && (forall c :: 0 <= c < Progress(x.tasks[k]) && c < |x.tasks[k].ix| ==>
          SlotRight(cfg, v, x, mem, x.tasks[k].ix[c]))
    && (x.tasks[k].stage.Replied? ==>
          forall c :: 0 <= c < |x.tasks[k].ix| && c < |x.tasks[k].stage.data| ==>
            EntryRight(cfg, v, x, x.tasks[k].ix[c], x.tasks[k].stage.data[c]))
  }

  ghost predicate TasksRight(cfg: Config, v: View, x: Get, mem: seq<Byte>)
  {
    forall k :: 0 <= k < |x.tasks| ==> TaskRight(cfg, v, x, mem, k)
  }

  ghost function Memory(s: State, x: Get): seq<Byte>
  {
    if x.block < |s.blocks| then s.blocks[x.block] else []
  }

  /** A client's finished call: each answer is what the view expects. */
  ghost predicate ReturnRight(cfg: Config, v: View, x: Get)
    requires x.phase.Returned?
  {
    && |x.phase.data| == |x.reqs|
    && forall i :: 0 <= i < |x.reqs| ==> EntryRight(cfg, v, x, i, x.phase.data[i])
  }

  ghost predicate GetRight(cfg: Config, v: View, s: State, g: nat)
    requires g < |s.gets|
  {
    var x := s.gets[g];
    && (Followed(v, s, g) ==> TasksRight(cfg, v, x, Memory(s, x)))
    && (x.parent.None? && x.phase.Returned? && x.phase.status == 0 && Chosen(v.who, s, g) ==>
          ReturnRight(cfg, v, x))
  }

  ghost predicate Rights(cfg: Config, v: View, s: State)
  {
    forall g :: 0 <= g < |s.gets| ==> GetRight(cfg, v, s, g)
  }

  /** What a step has to copy to keep a view: right bytes, for the calls it follows. */
  ghost predicate Suits(cfg: Config, v: View, s: State, step: Step)
  {
    step.ReadOne? && HasTask(s, step.g, step.k) && TaskIndexed(s.gets[step.g], step.k) && Followed(v, s, step.g) ==>
      var t := s.gets[step.g].tasks[step.k];
      t.stage.Running? && t.stage.done < |t.ix| ==> EntryRight(cfg, v, s.gets[step.g], t.ix[t.stage.done], step.bytes)
  }

  // ----- frames

  /** A call not touched by a step stays right when its block is left alone. */
  lemma UntouchedRight(cfg: Config, v: View, s: State, s': State, g: nat)
    requires g < |s.gets| && g < |s'.gets| && s'.gets[g] == s.gets[g]
    requires GetRight(cfg, v, s, g)
    requires Followed(v, s', g) ==> Followed(v, s, g)
    requires Followed(v, s', g) && Holds(s.gets[g]) ==> Memory(s', s.gets[g]) == Memory(s, s.gets[g])
    requires s.gets[g].phase.Routing? ==> s.gets[g].tasks == []
    ensures GetRight(cfg, v, s', g)
  {
  }

  /** A call followed after one call has changed in place was followed before. */
  lemma FollowedBefore(v: View, s: State, s': State, g: nat, c: nat)
    requires g < |s.gets| == |s'.gets| && c < |s.gets| && s'.gets == s.gets[g := s'.gets[g]]
    requires Evolves(s.gets[g], s'.gets[g]) && (s.gets[g].faild ==> s'.gets[g].faild)
    ensures Followed(v, s', c) ==> Followed(v, s, c)
  {
    if Followed(v, s', c) && s'.gets[c].parent.Some? {
      var (p, k) := s'.gets[c].parent.value;
      if p == g {
        assert s'.gets[g].tasks[k].stage.Serving?;
      }
    }
  }

  /** One call changes in place, no block but perhaps its own changes. */
  lemma ReplaceFlow(cfg: Config, v: View, s: State, s': State, g: nat)
    requires Safe(cfg, s) && Rights(cfg, v, s) && g < |s.gets| == |s'.gets|
    requires s'.gets == s.gets[g := s'.gets[g]]
    requires Evolves(s.gets[g], s'.gets[g]) && (s.gets[g].faild ==> s'.gets[g].faild)
    requires |s.blocks| <= |s'.blocks|
    requires forall b :: 0 <= b < |s.blocks| && !(Holds(s.gets[g]) && b == s.gets[g].block) ==>
        s'.blocks[b] == s.blocks[b]
    requires GetRight(cfg, v, s', g)
    ensures Rights(cfg, v, s')
  {
    forall c | 0 <= c < |s'.gets|
      ensures GetRight(cfg, v, s', c)
    {
      if c != g {
        assert GetOk(cfg, s.gets[c]) && GetRight(cfg, v, s, c);
        FollowedBefore(v, s, s', g, c);
        UntouchedRight(cfg, v, s, s', c);
      }
    }
  }

  /** A task that has made no further progress and received no reply is as right as before. */
  lemma TaskKept(cfg: Config, v: View, x: Get, y: Get, mem: seq<Byte>, k: nat)
    requires k < |x.tasks| == |y.tasks|
    requires x.name == y.name && x.node == y.node && x.parent == y.parent && x.reqs == y.reqs && x.route == y.route
    requires y.tasks[k].ix == x.tasks[k].ix
    requires Progress(y.tasks[k]) <= Progress(x.tasks[k])
    requires y.tasks[k].stage.Replied? ==> y.tasks[k].stage == x.tasks[k].stage
    requires TaskRight(cfg, v, x, mem, k)
    ensures TaskRight(cfg, v, y, mem, k)
  {
  }

  /** A task has moved on without a byte copied or a reply received. */
  lemma StageFlow(cfg: Config, v: View, s: State, s': State, g: nat, k: nat)
    requires Safe(cfg, s) && Rights(cfg, v, s) && TaskStep(s, s', g, k) && s'.blocks == s.blocks
    requires Progress(s'.gets[g].tasks[k]) <= Progress(s.gets[g].tasks[k]) && !s'.gets[g].tasks[k].stage.Replied?
    ensures Rights(cfg, v, s')
  {
    assert GetRight(cfg, v, s, g);
    TaskStepEvolves(s, s', g, k);
    FollowedBefore(v, s, s', g, g);
    StageGetRight(cfg, v, s, s', g, k);
    ReplaceFlow(cfg, v, s, s', g);
  }

  lemma StageGetRight(cfg: Config, v: View, s: State, s': State, g: nat, k: nat)
    requires TaskStep(s, s', g, k) && s'.blocks == s.blocks && GetRight(cfg, v, s, g)
    requires Followed(v, s', g) ==> Followed(v, s, g)
    requires Progress(s'.gets[g].tasks[k]) <= Progress(s.gets[g].tasks[k]) && !s'.gets[g].tasks[k].stage.Replied?
    ensures GetRight(cfg, v, s', g)
  {
    var x, y := s.gets[g], s'.gets[g];
    if Followed(v, s', g) {
      forall j | 0 <= j < |y.tasks|
        ensures TaskRight(cfg, v, y, Memory(s', y), j)
      {
        assert TaskRight(cfg, v, x, Memory(s, x), j);
        TaskKept(cfg, v, x, y, Memory(s, x), j);
      }
    }
  }

  // ----- steps that hand out, drop or count a task

  lemma PopFlow(cfg: Config, v: View, s: State, g: nat, k: nat)
    requires Safe(cfg, s) && Rights(cfg, v, s) && Enabled(cfg, s, Pop(g, k))
    ensures Rights(cfg, v, Apply(cfg, s, Pop(g, k)))
  {
    StageKnown(cfg, s, g, k);
    PopStep(cfg, s, g, k);
    StageFlow(cfg, v, s, Apply(cfg, s, Pop(g, k)), g, k);
  }

  lemma CompleteFlow(cfg: Config, v: View, s: State, g: nat, k: nat)
    requires Safe(cfg, s) && Rights(cfg, v, s) && Enabled(cfg, s, Complete(g, k))
    ensures Rights(cfg, v, Apply(cfg, s, Complete(g, k)))
  {
    StageKnown(cfg, s, g, k);
    CompleteStep(cfg, s, g, k);
    StageFlow(cfg, v, s, Apply(cfg, s, Complete(g, k)), g, k);
  }

  lemma FailFlow(cfg: Config, v: View, s: State, s': State, g: nat, k: nat)
    requires Safe(cfg, s) && Rights(cfg, v, s) && HasTask(s, g, k)
    requires var st := s.gets[g].tasks[k].stage; st.Sent? || st.Serving? || st.Replied?
    requires s' == SetGet(s, g, SetStage(s.gets[g], k, Failed).(faild := true))
    ensures Rights(cfg, v, s')
  {
    StageKnown(cfg, s, g, k);
    FailStep(s, g, k);
    StageFlow(cfg, v, s, s', g, k);
  }

  lemma LoseFlow(cfg: Config, v: View, s: State, g: nat, k: nat)
    requires Safe(cfg, s) && Rights(cfg, v, s) && Enabled(cfg, s, Lose(g, k))
    ensures Rights(cfg, v, Apply(cfg, s, Lose(g, k)))
  {
    FailFlow(cfg, v, s, Apply(cfg, s, Lose(g, k)), g, k);
  }

  lemma RejectFlow(cfg: Config, v: View, s: State, g: nat, k: nat)
    requires Safe(cfg, s) && Rights(cfg, v, s) && Enabled(cfg, s, Reject(g, k))
    ensures Rights(cfg, v, Apply(cfg, s, Reject(g, k)))
  {
    FailFlow(cfg, v, s, Apply(cfg, s, Reject(g, k)), g, k);
  }

  lemma PushFlow(cfg: Config, v: View, s: State, g: nat)
    requires Safe(cfg, s) && Rights(cfg, v, s) && Enabled(cfg, s, Push(g))
    ensures Rights(cfg, v, Apply(cfg, s, Push(g)))
  {
    StageKnown(cfg, s, g, s.gets[g].phase.next);
    PushStep(cfg, s, g);
    StageFlow(cfg, v, s, Apply(cfg, s, Push(g)), g, s.gets[g].phase.next);
  }

  lemma RouteOneFlow(cfg: Config, v: View, s: State, g: nat)
    requires Safe(cfg, s) && Rights(cfg, v, s) && Enabled(cfg, s, RouteOne(g))
    ensures Rights(cfg, v, Apply(cfg, s, RouteOne(g)))
  {
    var s' := Apply(cfg, s, RouteOne(g));
    assert GetRight(cfg, v, s, g) && GetOk(cfg, s.gets[g]);
    FollowedBefore(v, s, s', g, g);
    assert GetRight(cfg, v, s', g);
    ReplaceFlow(cfg, v, s, s', g);
  }

  lemma UnlockFlow(cfg: Config, v: View, s: State, g: nat)
    requires Safe(cfg, s) && Rights(cfg, v, s) && Enabled(cfg, s, Unlock(g))
    ensures Rights(cfg, v, Apply(cfg, s, Unlock(g)))
  {
    var s' := Apply(cfg, s, Unlock(g));
    assert GetRight(cfg, v, s, g) && GetOk(cfg, s.gets[g]);
    FollowedBefore(v, s, s', g, g);
    assert GetRight(cfg, v, s', g);
    ReplaceFlow(cfg, v, s, s', g);
  }

  lemma AllocateFlow(cfg: Config, v: View, s: State, g: nat, newBlock: Option<seq<Byte>>)
    requires Safe(cfg, s) && Rights(cfg, v, s) && Enabled(cfg, s, Allocate(g, newBlock))
    ensures Rights(cfg, v, Apply(cfg, s, Allocate(g, newBlock)))
  {
    var s' := Apply(cfg, s, Allocate(g, newBlock));
    assert GetRight(cfg, v, s, g) && GetOk(cfg, s.gets[g]);
    FollowedBefore(v, s, s', g, g);
    assert GetRight(cfg, v, s', g);
    ReplaceFlow(cfg, v, s, s', g);
  }

  // ----- steps that copy bytes

  /** Entry `i` of bucket k is served by node k, or by the node itself for a call from elsewhere. */
  lemma ServerOfEntry(cfg: Config, x: Get, k: nat, c: nat)
    requires GetOk(cfg, x) && k < |x.tasks| && c < |x.tasks[k].ix|
    ensures var i := x.tasks[k].ix[c];
            && i < |x.reqs| == |x.route|
            && Server(x, i) == (if x.parent.Some? then x.node else k)
  {
    StartedIndices(cfg, x, k);
    IndicesMember(x.route, k, x.tasks[k].ix[c]);
  }

  /** Writing one entry's slot leaves every other entry's slot alone. */
  lemma SlotKept(cfg: Config, v: View, x: Get, mem: seq<Byte>, i: nat, bytes: seq<Byte>, j: nat)
    requires i < |x.reqs| && j < |x.reqs| && i != j
    requires Pos(x.reqs, i) + |bytes| <= |mem| && |bytes| == x.reqs[i].len
    requires SlotRight(cfg, v, x, mem, j)
    ensures SlotRight(cfg, v, x, Splice(mem, Pos(x.reqs, i), bytes), j)
  {
    if i < j {
      PosOrder(x.reqs, i, j);
    } else {
      PosOrder(x.reqs, j, i);
    }
    SpliceMiss(mem, Pos(x.reqs, i), bytes, Pos(x.reqs, j), x.reqs[j].len);
  }

  /** Entry c of task j after entry d of task k has been written: in place, or as before. */
  lemma SlotAfterWrite(cfg: Config, v: View, x: Get, mem: seq<Byte>, k: nat, d: nat, bytes: seq<Byte>, j: nat, c: nat)
    requires GetOk(cfg, x) && k < |x.tasks| && d < |x.tasks[k].ix| && j < |x.tasks| && c < |x.tasks[j].ix|
    requires var i := x.tasks[k].ix[d];
             i < |x.reqs| && Pos(x.reqs, i) + |bytes| <= |mem| && EntryRight(cfg, v, x, i, bytes)
    requires (j == k && c == d) || SlotRight(cfg, v, x, mem, x.tasks[j].ix[c])
    ensures SlotRight(cfg, v, x, Splice(mem, Pos(x.reqs, x.tasks[k].ix[d]), bytes), x.tasks[j].ix[c])
  {
    var i := x.tasks[k].ix[d];
    if j == k && c == d {
      SpliceHit(mem, Pos(x.reqs, i), bytes);
    } else {
      StartedIndices(cfg, x, j);
      StartedIndices(cfg, x, k);
      IndicesDisjoint(x.route, j, c, k, d);
      SlotKept(cfg, v, x, mem, i, bytes, x.tasks[j].ix[c]);
    }
  }

  /** One more entry of task k is in place. */
  lemma TasksAfterWrite(cfg: Config, v: View, x: Get, y: Get, mem: seq<Byte>, k: nat, bytes: seq<Byte>)
    requires GetOk(cfg, x) && TasksRight(cfg, v, x, mem)
    requires k < |x.tasks| == |y.tasks| && y == SetStage(x, k, y.tasks[k].stage)
    requires Progress(x.tasks[k]) < |x.tasks[k].ix| && Progress(y.tasks[k]) == Progress(x.tasks[k]) + 1
    requires y.tasks[k].stage.Replied? ==> x.tasks[k].stage.Replied? && y.tasks[k].stage.data == x.tasks[k].stage.data
    requires var i := x.tasks[k].ix[Progress(x.tasks[k])];
             && i < |x.reqs| && Pos(x.reqs, i) + |bytes| <= |mem| && EntryRight(cfg, v, x, i, bytes)
    ensures TasksRight(cfg, v, y, Splice(mem, Pos(x.reqs, x.tasks[k].ix[Progress(x.tasks[k])]), bytes))
  {
    var d := Progress(x.tasks[k]);
    var mem' := Splice(mem, Pos(x.reqs, x.tasks[k].ix[d]), bytes);
    forall j | 0 <= j < |y.tasks|
      ensures TaskRight(cfg, v, y, mem', j)
    {
      assert TaskRight(cfg, v, x, mem, j);
      forall c | 0 <= c < Progress(y.tasks[j]) && c < |y.tasks[j].ix|
        ensures SlotRight(cfg, v, y, mem', y.tasks[j].ix[c])
      {
        SlotAfterWrite(cfg, v, x, mem, k, d, bytes, j, c);
        assert SlotRight(cfg, v, x, mem', x.tasks[j].ix[c]);
      }
    }
  }

  /** A task has copied its next entry into the block. */
  lemma WriteFlow(cfg: Config, v: View, s: State, s': State, g: nat, k: nat, bytes: seq<Byte>)
    requires Safe(cfg, s) && Rights(cfg, v, s) && TaskStep(s, s', g, k) && Holds(s.gets[g])
    requires var t, t' := s.gets[g].tasks[k], s'.gets[g].tasks[k];
             && Progress(t) < |t.ix| && Progress(t') == Progress(t) + 1 && CanWrite(s, g, t.ix[Progress(t)], |bytes|)
             && (t'.stage.Replied? ==> t.stage.Replied? && t'.stage.data == t.stage.data)
             && s'.blocks == Write(s, g, t.ix[Progress(t)], bytes).blocks
             && s'.gets[g] == SetStage(s.gets[g], k, t'.stage)
             && (Followed(v, s, g) ==> EntryRight(cfg, v, s.gets[g], t.ix[Progress(t)], bytes))
    ensures Rights(cfg, v, s')
  {
    TaskStepEvolves(s, s', g, k);
    FollowedBefore(v, s, s', g, g);
    assert GetRight(cfg, v, s, g);
    if Followed(v, s', g) {
      TasksAfterWrite(cfg, v, s.gets[g], s'.gets[g], Memory(s, s.gets[g]), k, bytes);
    }
    ReplaceFlow(cfg, v, s, s', g);
  }

  lemma ReadFlow(cfg: Config, v: View, s: State, g: nat, k: nat, bytes: seq<Byte>)
    requires Safe(cfg, s) && Rights(cfg, v, s) && Enabled(cfg, s, ReadOne(g, k, bytes))
    requires Suits(cfg, v, s, ReadOne(g, k, bytes))
    ensures Rights(cfg, v, Apply(cfg, s, ReadOne(g, k, bytes)))
  {
    StageKnown(cfg, s, g, k);
    WriterHolds(cfg, s.gets[g], k);
    ReadStep(cfg, s, g, k, bytes);
    WriteFlow(cfg, v, s, Apply(cfg, s, ReadOne(g, k, bytes)), g, k, bytes);
  }

  lemma CopyBackFlow(cfg: Config, v: View, s: State, g: nat, k: nat)
    requires Safe(cfg, s) && Rights(cfg, v, s) && Enabled(cfg, s, CopyBack(g, k))
    ensures Rights(cfg, v, Apply(cfg, s, CopyBack(g, k)))
  {
    var t := s.gets[g].tasks[k];
    StageKnown(cfg, s, g, k);
    WriterHolds(cfg, s.gets[g], k);
    CopyBackStep(cfg, s, g, k);
    CopiedRight(cfg, v, s, g, k);
    WriteFlow(cfg, v, s, Apply(cfg, s, CopyBack(g, k)), g, k,
        t.stage.data[t.stage.done][..s.gets[g].reqs[t.ix[t.stage.done]].len]);
  }

  /** An answer in a reply to a followed call is right, and none is longer than was asked for. */
  lemma CopiedRight(cfg: Config, v: View, s: State, g: nat, k: nat)
    requires Enabled(cfg, s, CopyBack(g, k)) && GetRight(cfg, v, s, g)
    ensures var x := s.gets[g];
            var t := x.tasks[k];
            var i := t.ix[t.stage.done];
            Followed(v, s, g) ==> EntryRight(cfg, v, x, i, t.stage.data[t.stage.done][..x.reqs[i].len])
  {
    var x := s.gets[g];
    var t := x.tasks[k];
    if Followed(v, s, g) {
      assert TaskRight(cfg, v, x, Memory(s, x), k);
      assert EntryRight(cfg, v, x, t.ix[t.stage.done], t.stage.data[t.stage.done]);
      assert t.stage.data[t.stage.done][..x.reqs[t.ix[t.stage.done]].len] == t.stage.data[t.stage.done];
    }
  }

  // ----- a new call

  lemma CaptureFlow(cfg: Config, v: View, s: State, node: nat, reqs: seq<SliceRequest>)
    requires Safe(cfg, s) && Rights(cfg, v, s) && Enabled(cfg, s, Capture(node, reqs))
    ensures Rights(cfg, v, Apply(cfg, s, Capture(node, reqs)))
  {
    var s' := Apply(cfg, s, Capture(node, reqs));
    forall g | 0 <= g < |s'.gets|
      ensures GetRight(cfg, v, s', g)
    {
      if g < |s.gets| {
        OldCall(cfg, v, s, s', g);
      }
    }
  }

  /** Calls already there are as right as before when a new one joins. */
  lemma OldCall(cfg: Config, v: View, s: State, s': State, g: nat)
    requires Safe(cfg, s) && Rights(cfg, v, s) && g < |s.gets| < |s'.gets|
    requires forall c :: 0 <= c < |s.gets| && c != g ==>
               s'.gets[c] == s.gets[c] || Joins(s.gets[c], s'.gets[c], |s.gets|)
    requires s'.gets[g] == s.gets[g] && s'.blocks == s.blocks
    ensures GetRight(cfg, v, s', g)
  {
    assert Linked(cfg, s, g) && GetOk(cfg, s.gets[g]) && GetRight(cfg, v, s, g);
    if s.gets[g].parent.Some? {
      assert ParentOk(s, g);
      var (p, _) := s.gets[g].parent.value;
      assert s'.gets[p] == s.gets[p] || Joins(s.gets[p], s'.gets[p], |s.gets|);
    }
    UntouchedRight(cfg, v, s, s', g);
  }

  /** One of the call's tasks is now served by call `c`. */
  ghost predicate Joins(x: Get, y: Get, c: nat)
  {
    exists k: nat :: k < |x.tasks| && y == SetStage(x, k, Serving(c))
  }

  lemma DeliverFlow(cfg: Config, v: View, s: State, g: nat, k: nat)
    requires Safe(cfg, s) && Rights(cfg, v, s) && Enabled(cfg, s, Deliver(g, k))
    ensures Rights(cfg, v, Apply(cfg, s, Deliver(g, k)))
  {
    var s' := Apply(cfg, s, Deliver(g, k));
    assert s'.gets[g] == SetStage(s.gets[g], k, Serving(|s.gets|));
    forall d | 0 <= d < |s'.gets|
      ensures GetRight(cfg, v, s', d)
    {
      if d == g {
        assert StageOk(s.gets[g], k) && GetRight(cfg, v, s, g);
        SentFlow(cfg, v, s, s', g, k);
      } else if d < |s.gets| {
        assert Joins(s.gets[g], s'.gets[g], |s.gets|);
        OldCall(cfg, v, s, s', d);
      }
    }
  }

  lemma SentFlow(cfg: Config, v: View, s: State, s': State, g: nat, k: nat)
    requires g < |s.gets| < |s'.gets| && k < |s.gets[g].tasks|
    requires s'.gets[g] == SetStage(s.gets[g], k, Serving(|s.gets|)) && s.gets[g].parent.None?
    requires s'.blocks == s.blocks
    requires GetRight(cfg, v, s, g)
    ensures GetRight(cfg, v, s', g)
  {
    var x, y := s.gets[g], s'.gets[g];
    if Followed(v, s', g) {
      assert Followed(v, s, g);
      forall j | 0 <= j < |y.tasks|
        ensures TaskRight(cfg, v, y, Memory(s', y), j)
      {
        assert TaskRight(cfg, v, x, Memory(s, x), j);
        TaskKept(cfg, v, x, y, Memory(s, x), j);
      }
    }
  }

  // ----- the answer

  /** When `finish` is set every request's slot holds its answer. */
  lemma FinishedSlots(cfg: Config, v: View, x: Get, mem: seq<Byte>, i: nat)
    requires GetOk(cfg, x) && x.finish && Started(x) && i < |x.reqs| && TasksRight(cfg, v, x, mem)
    ensures SlotRight(cfg, v, x, mem, i)
  {
    FinishMeansAllDone(cfg, x);
    var k := x.route[i];
    IndicesMember(x.route, k, i);
    assert i in x.tasks[k].ix;
    var c :| 0 <= c < |x.tasks[k].ix| && x.tasks[k].ix[c] == i;
    assert Settled(x.tasks[k]) && TaskRight(cfg, v, x, mem, k);
  }

  lemma GatheredRight(cfg: Config, v: View, x: Get, mem: seq<Byte>)
    requires GetOk(cfg, x) && x.finish && Started(x) && TasksRight(cfg, v, x, mem) && Total(x.reqs) <= |mem|
    ensures forall i :: 0 <= i < |x.reqs| ==> EntryRight(cfg, v, x, i, Gathered(mem, x.reqs)[i])
  {
    forall i | 0 <= i < |x.reqs|
      ensures EntryRight(cfg, v, x, i, Gathered(mem, x.reqs)[i])
    {
      FinishedSlots(cfg, v, x, mem, i);
    }
  }

  lemma AnsweredFlow(cfg: Config, v: View, s: State, g: nat)
    requires Safe(cfg, s) && Rights(cfg, v, s) && Enabled(cfg, s, Succeed(g))
    ensures Rights(cfg, v, Answered(s, g))
  {
    var s1 := Answered(s, g);
    AnsweredGet(cfg, s, g);
    assert GetRight(cfg, v, s, g);
    if s.gets[g].parent.None? && Chosen(v.who, s, g) {
      assert Followed(v, s, g);
      GatheredRight(cfg, v, s.gets[g], Memory(s, s.gets[g]));
    }
    ReplaceFlow(cfg, v, s, s1, g);
  }

  /** The answers of a call made for a task are answers to that task's entries. */
  lemma ReplyEntries(cfg: Config, v: View, s: State, c: nat, data: seq<seq<Byte>>, j: nat)
    requires c < |s.gets| && s.gets[c].parent.Some? && ParentOk(s, c)
    requires GetOk(cfg, s.gets[c]) && GetOk(cfg, s.gets[s.gets[c].parent.value.0])
    requires j < |data| == |s.gets[c].reqs| && EntryRight(cfg, v, s.gets[c], j, data[j])
    ensures var (g, k) := s.gets[c].parent.value;
            EntryRight(cfg, v, s.gets[g], s.gets[g].tasks[k].ix[j], data[j])
  {
    var (g, k) := s.gets[c].parent.value;
    var x := s.gets[g];
    var i := x.tasks[k].ix[j];
    ServerOfEntry(cfg, x, k, j);
    NarrowFixed(x.reqs[i].start);
    NarrowFixed(x.reqs[i].len);
    NarrowFixed(x.reqs[i].partition);
  }

  lemma ReplyFlow(cfg: Config, v: View, s: State, c: nat, data: seq<seq<Byte>>)
    requires Safe(cfg, s) && Rights(cfg, v, s) && c < |s.gets| && Started(s.gets[c])
    requires |data| == |s.gets[c].reqs|
    requires forall g, k :: Awaits(v, s, c, g, k) ==> forall j :: 0 <= j < |data| ==>
        EntryRight(cfg, v, s.gets[c], j, data[j])
    ensures Rights(cfg, v, Reply(s, c, data))
  {
    var s' := Reply(s, c, data);
    if s.gets[c].parent.Some? {
      var (g, k) := s.gets[c].parent.value;
      assert Linked(cfg, s, c) && ParentOk(s, c);
      if HasTask(s, g, k) && s.gets[g].tasks[k].stage == Serving(c) {
        assert Evolves(s.gets[g], s'.gets[g]);
        FollowedBefore(v, s, s', g, g);
        ReplyGetRight(cfg, v, s, s', c, data);
        ReplaceFlow(cfg, v, s, s', g);
      }
    }
  }

  /** Task `k` of a followed call `g` waits for call `c`. */
  ghost predicate Awaits(v: View, s: State, c: nat, g: nat, k: nat)
    requires c < |s.gets|
  {
    && s.gets[c].parent == Some((g, k)) && HasTask(s, g, k)
    && s.gets[g].tasks[k].stage == Serving(c) && Followed(v, s, g)
  }

  lemma ReplyGetRight(cfg: Config, v: View, s: State, s': State, c: nat, data: seq<seq<Byte>>)
    requires Safe(cfg, s) && Rights(cfg, v, s) && c < |s.gets| && s.gets[c].parent.Some? && ParentOk(s, c)
    requires |data| == |s.gets[c].reqs|
    requires forall g, k :: Awaits(v, s, c, g, k) ==> forall j :: 0 <= j < |data| ==>
        EntryRight(cfg, v, s.gets[c], j, data[j])
    requires var (g, k) := s.gets[c].parent.value;
             && HasTask(s, g, k) && s.gets[g].tasks[k].stage == Serving(c)
             && s' == SetGet(s, g, SetStage(s.gets[g], k, Replied(data, 0)))
             && (Followed(v, s', g) ==> Followed(v, s, g))
    ensures GetRight(cfg, v, s', s.gets[c].parent.value.0)
  {
    var (g, k) := s.gets[c].parent.value;
    var x, y := s.gets[g], s'.gets[g];
    assert GetRight(cfg, v, s, g);
    if Followed(v, s', g) {
      assert Awaits(v, s, c, g, k);
      forall j | 0 <= j < |y.tasks|
        ensures TaskRight(cfg, v, y, Memory(s', y), j)
      {
        assert TaskRight(cfg, v, x, Memory(s, x), j);
        if j == k {
          ReplyTask(cfg, v, s, c, data, y, k);
        } else {
          TaskKept(cfg, v, x, y, Memory(s, x), j);
        }
      }
    }
  }

  lemma ReplyTask(cfg: Config, v: View, s: State, c: nat, data: seq<seq<Byte>>, y: Get, k: nat)
    requires Safe(cfg, s) && c < |s.gets| && s.gets[c].parent.Some? && ParentOk(s, c)
    requires |data| == |s.gets[c].reqs| && forall j :: 0 <= j < |data| ==> EntryRight(cfg, v, s.gets[c], j, data[j])
    requires s.gets[c].parent.value.1 == k
    requires var x := s.gets[s.gets[c].parent.value.0]; k < |x.tasks| && y == SetStage(x, k, Replied(data, 0))
    ensures TaskRight(cfg, v, y, Memory(s, y), k)
  {
    forall j | 0 <= j < |y.tasks[k].ix| && j < |data|
      ensures EntryRight(cfg, v, y, y.tasks[k].ix[j], data[j])
    {
      ReplyEntries(cfg, v, s, c, data, j);
    }
  }

  lemma SucceedFlow(cfg: Config, v: View, s: State, g: nat)
    requires Safe(cfg, s) && Rights(cfg, v, s) && Enabled(cfg, s, Succeed(g))
    ensures Rights(cfg, v, Apply(cfg, s, Succeed(g)))
  {
    AnsweredSafe(cfg, s, g);
    AnsweredFlow(cfg, v, s, g);
    var s1 := Answered(s, g);
    forall p, k | Awaits(v, s1, g, p, k)
      ensures forall j :: 0 <= j < |s1.gets[g].phase.data| ==>
          EntryRight(cfg, v, s1.gets[g], j, s1.gets[g].phase.data[j])
    {
      AnswerRight(cfg, v, s, g, p, k);
    }
    GatheredLengths(s.blocks[s.gets[g].block], s.gets[g].reqs);
    ReplyFlow(cfg, v, s1, g, s1.gets[g].phase.data);
  }

  /** A call's answers are right while the task they are for still waits. */
  lemma AnswerRight(cfg: Config, v: View, s: State, g: nat, p: nat, k: nat)
    requires Safe(cfg, s) && Rights(cfg, v, s) && Enabled(cfg, s, Succeed(g))
    requires s.gets[g].parent == Some((p, k)) && HasTask(Answered(s, g), p, k)
    requires Answered(s, g).gets[p].tasks[k].stage == Serving(g) && Followed(v, Answered(s, g), p)
    ensures var y := Answered(s, g).gets[g];
            forall j :: 0 <= j < |y.phase.data| ==> EntryRight(cfg, v, y, j, y.phase.data[j])
  {
    var x := s.gets[g];
    assert GetRight(cfg, v, s, g) && Linked(cfg, s, g) && ParentOk(s, g);
    assert Followed(v, s, g);
    GatheredRight(cfg, v, x, Memory(s, x));
    var y := Answered(s, g).gets[g];
    assert forall j :: 0 <= j < |x.reqs| ==> EntryRight(cfg, v, x, j, y.phase.data[j]);
  }

  lemma GiveUpFlow(cfg: Config, v: View, s: State, g: nat)
    requires Safe(cfg, s) && Rights(cfg, v, s) && Enabled(cfg, s, GiveUp(g))
    ensures Rights(cfg, v, Apply(cfg, s, GiveUp(g)))
  {
    OnlyClientsFail(cfg, s.gets[g]);
    ReplaceFlow(cfg, v, s, Apply(cfg, s, GiveUp(g)), g);
  }

  // ----- switching, unloading and destroying handlers

  /** A finished call whose leftover tasks were dropped: what it returned is unchanged. */
  ghost predicate Returns(x: Get, y: Get)
  {
    y.phase == x.phase && y.reqs == x.reqs && y.route == x.route && y.name == x.name && y.parent == x.parent
        && y.node == x.node
  }

  lemma SwitchFlow(cfg: Config, v: View, s: State, step: Step)
    requires Safe(cfg, s) && Rights(cfg, v, s) && Enabled(cfg, s, step) && Switches(step)
    ensures Rights(cfg, v, Apply(cfg, s, step))
  {
    var s' := Apply(cfg, s, step);
    SwitchCalls(cfg, s, step);
    forall g | 0 <= g < |s'.gets|
      ensures GetRight(cfg, v, s', g)
    {
      assert GetRight(cfg, v, s, g);
      SwitchTrusted(cfg, s, step, g);
      SwitchedRight(cfg, v, s, s', g);
    }
  }

  lemma SwitchedRight(cfg: Config, v: View, s: State, s': State, g: nat)
    requires g < |s.gets| == |s'.gets| && s'.blocks == s.blocks && GetRight(cfg, v, s, g)
    requires Returns(s.gets[g], s'.gets[g])
    requires Trusted(s', g) ==> Trusted(s, g) && s'.gets[g] == s.gets[g]
    requires forall c :: 0 <= c < |s.gets| ==> s'.gets[c].node == s.gets[c].node
    ensures GetRight(cfg, v, s', g)
  {
  }

  lemma SwitchTrusted(cfg: Config, s: State, step: Step, g: nat)
    requires Safe(cfg, s) && Enabled(cfg, s, step) && Switches(step)
    requires g < |s.gets| == |Apply(cfg, s, step).gets|
    ensures Trusted(Apply(cfg, s, step), g) ==> Trusted(s, g) && Apply(cfg, s, step).gets[g] == s.gets[g]
  {
    var s' := Apply(cfg, s, step);
    SwitchCalls(cfg, s, step);
    if s.gets[g].parent.Some? {
      assert ParentOk(s, g) by {
        assert Linked(cfg, s, g);
      }
      var (p, _) := s.gets[g].parent.value;
      assert s'.gets[p] == s.gets[p] || !Active(s'.gets[p]);
    }
  }

  lemma SwitchCalls(cfg: Config, s: State, step: Step)
    requires Safe(cfg, s) && Enabled(cfg, s, step) && Switches(step)
    ensures var s' := Apply(cfg, s, step);
            && |s'.gets| == |s.gets| && s'.blocks == s.blocks
            && forall g :: 0 <= g < |s.gets| ==>
                 s'.gets[g] == s.gets[g] || (!Active(s.gets[g]) && Returns(s.gets[g], s'.gets[g]))
  {
  }

  // ----- all steps

  lemma TaskStepFlow(cfg: Config, v: View, s: State, step: Step)
    requires Safe(cfg, s) && Rights(cfg, v, s) && Enabled(cfg, s, step) && Suits(cfg, v, s, step) && MovesTask(step)
    ensures Rights(cfg, v, Apply(cfg, s, step))
  {
    match step
    case Pop(g, k) => PopFlow(cfg, v, s, g, k);
    case ReadOne(g, k, bytes) => ReadFlow(cfg, v, s, g, k, bytes);
    case Complete(g, k) => CompleteFlow(cfg, v, s, g, k);
    case Deliver(g, k) => DeliverFlow(cfg, v, s, g, k);
    case Lose(g, k) => LoseFlow(cfg, v, s, g, k);
    case Reject(g, k) => RejectFlow(cfg, v, s, g, k);
    case CopyBack(g, k) => CopyBackFlow(cfg, v, s, g, k);
  }

  lemma StartStepFlow(cfg: Config, v: View, s: State, step: Step)
    requires Safe(cfg, s) && Rights(cfg, v, s) && Enabled(cfg, s, step) && MovesStart(step)
    ensures Rights(cfg, v, Apply(cfg, s, step))
  {
    match step
    case RouteOne(g) => RouteOneFlow(cfg, v, s, g);
    case Unlock(g) => UnlockFlow(cfg, v, s, g);
    case Allocate(g, newBlock) => AllocateFlow(cfg, v, s, g, newBlock);
    case Push(g) => PushFlow(cfg, v, s, g);
  }

  /** Every step keeps a view that it suits. */
  lemma StepFlow(cfg: Config, v: View, s: State, step: Step)
    requires Safe(cfg, s) && Rights(cfg, v, s) && Enabled(cfg, s, step) && Suits(cfg, v, s, step)
    ensures Rights(cfg, v, Apply(cfg, s, step))
  {
    if MovesTask(step) {
      TaskStepFlow(cfg, v, s, step);
    } else if MovesStart(step) {
      StartStepFlow(cfg, v, s, step);
    } else if Switches(step) {
      SwitchFlow(cfg, v, s, step);
    } else if step.Capture? {
      CaptureFlow(cfg, v, s, step.node, step.reqs);
    } else if step.Succeed? {
      SucceedFlow(cfg, v, s, step.g);
    } else {
      GiveUpFlow(cfg, v, s, step.g);
    }
  }
}
