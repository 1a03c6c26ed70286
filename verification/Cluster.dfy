/**
 The whole cluster as a state machine over atomic steps: any number of `Get`s in flight on any
 node, worker threads, remote calls that may be lost, model switches, delayed unloading and
 destruction of handlers. A step that would block is not enabled.
 */
module Cluster {
  import opened Bytes
  import opened Requests
  import opened Sharding

  /** What never changes: the number of nodes and the slice files of every published model. */
  datatype Config = Config(nodes: nat, files: map<Name, seq<seq<Byte>>>)

  /** A loaded model on one node (`ModelHander`). */
  datatype Handler = Handler(node: nat, name: Name, loaded: bool, gone: bool)

  /** The switch state of one node (`ModelManger`). */
  datatype Node = Node(perNode: nat, current: Option<nat>, table: map<Name, nat>)

  /** Where one task of a `Get` is. */
  datatype Stage =
    | Unsent                                         // not handed out yet
    | Skipped                                        // empty and remote: nothing is sent
    | Queued                                         // in the queue of the Get's own handler
    | Running(done: nat)                             // a worker has copied `done` entries
    | Sent                                           // remote call started
    | Serving(child: nat)                            // the remote node runs `Get` number `child` for it
    | Replied(data: seq<seq<Byte>>, done: nat)       // reply here, `done` entries copied back
    | Finished
    | Failed
    | Dropped                                        // its handler was destroyed while it was queued

  /** One task: the indices of the requests it carries, in order, and where it is. */
  datatype Task = Task(ix: seq<nat>, stage: Stage)

  datatype Phase = Routing | Pushing(next: nat) | Waiting | Returned(status: int, data: seq<seq<Byte>>)

  /**
   A call of `Get`. `parent` is the task it serves when another node asked for it; `making` says that it
   has left the pool's lock to make a block.
   */
  datatype Get = Get(node: nat, name: Name, handler: nat, parent: Option<(nat, nat)>,
                     reqs: seq<SliceRequest>, route: seq<nat>, making: bool, phase: Phase, tasks: seq<Task>,
                     finishNum: nat, finish: bool, faild: bool, block: nat)

  /**
   `free[2 * i]` is the pool of node i's service, `free[2 * i + 1]` that of its internal service, and
   `made` counts the blocks each pool has made.
   */
  datatype State = State(nodes: seq<Node>, handlers: seq<Handler>, gets: seq<Get>,
                         blocks: seq<seq<Byte>>, free: seq<seq<nat>>, made: seq<nat>)

  datatype Step =
    | Capture(node: nat, reqs: seq<SliceRequest>)
    | RouteOne(g: nat)
    | Unlock(g: nat)
    | Allocate(g: nat, newBlock: Option<seq<Byte>>)
    | Push(g: nat)
    | Pop(g: nat, k: nat)
    | ReadOne(g: nat, k: nat, bytes: seq<Byte>)
    | Complete(g: nat, k: nat)
    | Deliver(g: nat, k: nat)
    | Lose(g: nat, k: nat)
    | Reject(g: nat, k: nat)
    | CopyBack(g: nat, k: nat)
    | Succeed(g: nat)
    | GiveUp(g: nat)
    | StoreRoute(node: nat, name: Name)
    | Publish(node: nat, name: Name)
    | Cleanup(node: nat)
    | Destroy(h: nat)

  // ----- the files

  /** A model every node can take a share of. */
  predicate Servable(cfg: Config, name: Name)
  {
    name in cfg.files && 1 <= cfg.nodes <= |cfg.files[name]|
  }

  /** Slice `p` of the model is in the share that node `node` takes of it. */
  predicate HasSlice(cfg: Config, name: Name, node: nat, p: nat)
  {
    Servable(cfg, name) && p < |cfg.files[name]| && Loads(|cfg.files[name]|, cfg.nodes, node, p)
  }

  /** The request names a slice of the model and a range inside its file, at the offset the readers take for it. */
  predicate Inside(cfg: Config, name: Name, req: SliceRequest)
  {
    && name in cfg.files && req.partition < |cfg.files[name]|
    && Narrow(req.start) + req.len <= |cfg.files[name][req.partition]|
  }

  function FileBytes(cfg: Config, name: Name, req: SliceRequest): (r: seq<Byte>)
    requires Inside(cfg, name, req)
  {
    Cut(cfg.files[name][req.partition], Narrow(req.start), req.len)
  }

  /** `bytes` answers `req`: the right length always, the file's bytes when the node has the slice loaded. */
  predicate Right(cfg: Config, name: Name, node: nat, req: SliceRequest, bytes: seq<Byte>)
  {
    && |bytes| == req.len
    && (HasSlice(cfg, name, node, req.partition) && Inside(cfg, name, req) ==> bytes == FileBytes(cfg, name, req))
  }

  // ----- parts of a Get

  /** One task per node for a client's `Get`, a single one for a call from another node. */
  function Width(cfg: Config, x: Get): nat
  {
    if x.parent.Some? then 1 else cfg.nodes
  }

  predicate Local(x: Get, k: nat)
  {
    x.parent.Some? || k == x.node
  }

  /** The node whose slices serve request `i`. */
  function Server(x: Get, i: nat): nat
    requires i < |x.route|
  {
    if x.parent.Some? then x.node else x.route[i]
  }

  predicate Active(x: Get)
  {
    !x.phase.Returned?
  }

  /** A failed `Get` never gives its block back, so it holds it for good. */
  predicate Holds(x: Get)
  {
    x.phase.Pushing? || x.phase.Waiting? || (x.phase.Returned? && x.phase.status != 0)
  }

  function PoolOf(x: Get): nat
  {
    2 * x.node + (if x.parent.Some? then 1 else 0)
  }

  /** Entries of a task already copied into the block. */
  function Progress(t: Task): nat
  {
    match t.stage
    case Running(d) => d
    case Replied(_, d) => d
    case Finished => |t.ix|
    case _ => 0
  }

  predicate HasTask(s: State, g: nat, k: nat)
  {
    g < |s.gets| && k < |s.gets[g].tasks|
  }

  predicate TaskIndexed(x: Get, k: nat)
  {
    k < |x.tasks| && forall j :: 0 <= j < |x.tasks[k].ix| ==> x.tasks[k].ix[j] < |x.reqs|
  }

  function SetStage(x: Get, k: nat, stage: Stage): (x': Get)
    requires k < |x.tasks|
  {
    x.(tasks := x.tasks[k := x.tasks[k].(stage := stage)])
  }

  function SetGet(s: State, g: nat, x: Get): (s': State)
    requires g < |s.gets|
  {
    s.(gets := s.gets[g := x])
  }

  /** memcpy of one entry's bytes into the Get's block. */
  function Write(s: State, g: nat, i: nat, bytes: seq<Byte>): (s': State)
    requires CanWrite(s, g, i, |bytes|)
  {
    var x := s.gets[g];
    s.(blocks := s.blocks[x.block := Splice(s.blocks[x.block], Pos(x.reqs, i), bytes)])
  }

  predicate CanWrite(s: State, g: nat, i: nat, len: nat)
  {
    && g < |s.gets|
    && i < |s.gets[g].reqs|
    && s.gets[g].block < |s.blocks|
    && Pos(s.gets[g].reqs, i) + len <= |s.blocks[s.gets[g].block]|
  }

  /** The reply of a served call reaches the task that still waits for it. */
  function Reply(s: State, c: nat, data: seq<seq<Byte>>): (s': State)
    requires c < |s.gets|
  {
    match s.gets[c].parent
    case None => s
    case Some((g, k)) =>
      if HasTask(s, g, k) && s.gets[g].tasks[k].stage == Serving(c)
      then SetGet(s, g, SetStage(s.gets[g], k, Replied(data, 0)))
      else s
  }

  /** Unloaded by the delayed cleanup on `node`: in the table, not current, and nobody else holds it. */
  predicate Idle(s: State, node: nat, h: nat)
  {
    && node < |s.nodes| && h < |s.handlers|
    && s.handlers[h].name in s.nodes[node].table && s.nodes[node].table[s.handlers[h].name] == h
    && s.nodes[node].current != Some(h)
    && Unheld(s, h)
  }

  predicate Unheld(s: State, h: nat)
  {
    forall g :: 0 <= g < |s.gets| && Active(s.gets[g]) ==> s.gets[g].handler != h
  }

  /** No table, no current pointer and no running call refers to handler `h`: its destructor runs. */
  predicate Unreferenced(s: State, h: nat)
  {
    && Unheld(s, h)
    && (forall i :: 0 <= i < |s.nodes| ==> s.nodes[i].current != Some(h))
    && (forall i, m :: 0 <= i < |s.nodes| && m in s.nodes[i].table ==> s.nodes[i].table[m] != h)
  }

  /** A destroyed handler stops its workers and drops what is still queued. */
  function DropQueued(x: Get, h: nat): (x': Get)
  {
    if x.handler != h then x
    else x.(tasks := seq(|x.tasks|, k requires 0 <= k < |x.tasks| =>
              if x.tasks[k].stage == Queued then x.tasks[k].(stage := Dropped) else x.tasks[k]))
  }

  // ----- steps

  predicate Enabled(cfg: Config, s: State, step: Step)
  {
    match step
    case Capture(node, reqs) =>
      && node < |s.nodes| && s.nodes[node].current.Some? && s.nodes[node].current.value < |s.handlers|
      && Admissible(reqs)
    case RouteOne(g) =>
      && g < |s.gets| && s.gets[g].phase.Routing? && |s.gets[g].route| < |s.gets[g].reqs|
      && s.gets[g].node < |s.nodes| && s.nodes[s.gets[g].node].perNode > 0 && cfg.nodes > 0
    case Unlock(g) =>
      && g < |s.gets| && s.gets[g].phase.Routing? && |s.gets[g].route| == |s.gets[g].reqs| && !s.gets[g].making
      && PoolOf(s.gets[g]) < |s.free| && PoolOf(s.gets[g]) < |s.made|
      && s.free[PoolOf(s.gets[g])] == [] && s.made[PoolOf(s.gets[g])] < POOL_BLOCKS
    case Allocate(g, newBlock) =>
      && g < |s.gets| && s.gets[g].phase.Routing? && |s.gets[g].route| == |s.gets[g].reqs|
      && PoolOf(s.gets[g]) < |s.free| && PoolOf(s.gets[g]) < |s.made|
      && (if newBlock.Some? then s.gets[g].making && |newBlock.value| == BLOCK_SIZE
          else !s.gets[g].making && s.free[PoolOf(s.gets[g])] != [])
    case Push(g) =>
      && g < |s.gets| && s.gets[g].phase.Pushing? && s.gets[g].phase.next < |s.gets[g].tasks|
    case Pop(g, k) =>
      && HasTask(s, g, k) && s.gets[g].tasks[k].stage.Queued?
      && s.gets[g].handler < |s.handlers| && !s.handlers[s.gets[g].handler].gone
    case ReadOne(g, k, bytes) =>
      && HasTask(s, g, k) && TaskIndexed(s.gets[g], k)
      && s.gets[g].tasks[k].stage.Running? && s.gets[g].tasks[k].stage.done < |s.gets[g].tasks[k].ix|
      && s.gets[g].handler < |s.handlers|
      && (var i := s.gets[g].tasks[k].ix[s.gets[g].tasks[k].stage.done];
          var h := s.handlers[s.gets[g].handler];
          && CanWrite(s, g, i, |bytes|)
          && |bytes| == s.gets[g].reqs[i].len
          // an unloaded or missing reader leaves arbitrary bytes: the result of Read is not looked at
          && (h.loaded ==> Right(cfg, h.name, h.node, s.gets[g].reqs[i], bytes)))
    case Complete(g, k) =>
      && HasTask(s, g, k)
      && (s.gets[g].tasks[k].stage.Running? || s.gets[g].tasks[k].stage.Replied?)
      && s.gets[g].tasks[k].stage.done == |s.gets[g].tasks[k].ix|
    case Deliver(g, k) =>
      && HasTask(s, g, k) && TaskIndexed(s.gets[g], k) && s.gets[g].tasks[k].stage.Sent?
      && k < |s.nodes| && s.gets[g].name in s.nodes[k].table
    case Lose(g, k) =>
      && HasTask(s, g, k)
      && (match s.gets[g].tasks[k].stage
          case Sent => true case Serving(_) => true case Replied(_, d) => d == 0 case _ => false)
    case Reject(g, k) =>
      && HasTask(s, g, k) && s.gets[g].tasks[k].stage.Replied?
      && |s.gets[g].tasks[k].stage.data| < |s.gets[g].tasks[k].ix|
    case CopyBack(g, k) =>
      && HasTask(s, g, k) && TaskIndexed(s.gets[g], k) && s.gets[g].tasks[k].stage.Replied?
      && (var t := s.gets[g].tasks[k];
          && t.stage.done < |t.ix| <= |t.stage.data|
          && s.gets[g].reqs[t.ix[t.stage.done]].len <= |t.stage.data[t.stage.done]|
          && CanWrite(s, g, t.ix[t.stage.done], s.gets[g].reqs[t.ix[t.stage.done]].len))
    case Succeed(g) =>
      && g < |s.gets| && s.gets[g].phase.Waiting? && s.gets[g].finish && !s.gets[g].faild
      && s.gets[g].block < |s.blocks| && Total(s.gets[g].reqs) <= |s.blocks[s.gets[g].block]|
      && PoolOf(s.gets[g]) < |s.free|
    case GiveUp(g) =>
      g < |s.gets| && s.gets[g].phase.Waiting? && s.gets[g].faild
    case StoreRoute(node, name) =>
      node < |s.nodes| && Servable(cfg, name)
    case Publish(node, name) =>
      node < |s.nodes| && Servable(cfg, name) && s.nodes[node].perNode > 0
    case Cleanup(node) =>
      node < |s.nodes|
    case Destroy(h) =>
      && h < |s.handlers| && Unreferenced(s, h)
      && forall g :: 0 <= g < |s.gets| && s.gets[g].handler == h ==>
           forall k :: 0 <= k < |s.gets[g].tasks| ==> !s.gets[g].tasks[k].stage.Running?
  }

  function Apply(cfg: Config, s: State, step: Step): (s': State)
    requires Enabled(cfg, s, step)
  {
    match step
    case Capture(node, reqs) =>
      var h := s.nodes[node].current.value;
      s.(gets := s.gets + [NewGet(node, s.handlers[h].name, h, None, reqs)])
    case RouteOne(g) =>
      var x := s.gets[g];
      var k := if x.parent.Some? then 0
               else NodeForSlice(s.nodes[x.node].perNode, cfg.nodes, x.reqs[|x.route|].partition);
      SetGet(s, g, x.(route := x.route + [k]))
    case Unlock(g) => SetGet(s, g, s.gets[g].(making := true))
    case Allocate(g, newBlock) => ApplyAllocate(cfg, s, g, newBlock)
    case Push(g) => SetGet(s, g, Pushed(s.gets[g]))
    case Pop(g, k) => SetGet(s, g, SetStage(s.gets[g], k, Running(0)))
    case ReadOne(g, k, bytes) =>
      var t := s.gets[g].tasks[k];
      SetGet(Write(s, g, t.ix[t.stage.done], bytes), g, SetStage(s.gets[g], k, Running(t.stage.done + 1)))
    case Complete(g, k) => SetGet(s, g, Completed(s.gets[g], k))
    case Deliver(g, k) =>
      var x := s.gets[g];
      var sub := NewGet(k, x.name, s.nodes[k].table[x.name], Some((g, k)), ToWire(Entries(x.reqs, x.tasks[k].ix)));
      var s1 := SetGet(s, g, SetStage(x, k, Serving(|s.gets|)));
      s1.(gets := s1.gets + [sub])
    case Lose(g, k) => SetGet(s, g, SetStage(s.gets[g], k, Failed).(faild := true))
    case Reject(g, k) => SetGet(s, g, SetStage(s.gets[g], k, Failed).(faild := true))
    case CopyBack(g, k) =>
      var x := s.gets[g];
      var t := x.tasks[k];
      var i := t.ix[t.stage.done];
      SetGet(Write(s, g, i, t.stage.data[t.stage.done][..x.reqs[i].len]), g,
             SetStage(x, k, Replied(t.stage.data, t.stage.done + 1)))
    case Succeed(g) =>
      var x := s.gets[g];
      var data := Gathered(s.blocks[x.block], x.reqs);
      var s1 := SetGet(s, g, x.(phase := Returned(0, data)));
      Reply(s1.(free := s1.free[PoolOf(x) := s1.free[PoolOf(x)] + [x.block]]), g, data)
    case GiveUp(g) =>
      Reply(SetGet(s, g, s.gets[g].(phase := Returned(-1, []))), g, [])
    case StoreRoute(node, name) =>
      s.(nodes := s.nodes[node := s.nodes[node].(perNode := PerNode(|cfg.files[name]|, cfg.nodes))])
    case Publish(node, name) =>
      var h := |s.handlers|;
      var n := s.nodes[node];
      s.(handlers := s.handlers + [Handler(node, name, true, false)],
         nodes := s.nodes[node := n.(current := Some(h), table := n.table[name := h])])
    case Cleanup(node) =>
      s.(handlers := seq(|s.handlers|, h requires 0 <= h < |s.handlers| =>
           if Idle(s, node, h) then s.handlers[h].(loaded := false) else s.handlers[h]))
    case Destroy(h) =>
      s.(handlers := s.handlers[h := s.handlers[h].(loaded := false, gone := true)],
         gets := seq(|s.gets|, g requires 0 <= g < |s.gets| => DropQueued(s.gets[g], h)))
  }

  function NewGet(node: nat, name: Name, h: nat, parent: Option<(nat, nat)>, reqs: seq<SliceRequest>): Get
  {
    Get(node, name, h, parent, reqs, [], false, Routing, [], 0, false, false, 0)
  }

  /**
   A block comes off the back of the pool's list, or is new with whatever memory held before, and is
   counted once the lock is taken again.
   */
  function ApplyAllocate(cfg: Config, s: State, g: nat, newBlock: Option<seq<Byte>>): (s': State)
    requires Enabled(cfg, s, Allocate(g, newBlock))
  {
    var x := s.gets[g];
    var pool := s.free[PoolOf(x)];
    var block := if newBlock.Some? then |s.blocks| else pool[|pool| - 1];
    var tasks := seq(Width(cfg, x), k requires 0 <= k < Width(cfg, x) => Task(Indices(x.route, k), Unsent));
    var x' := x.(tasks := tasks, phase := Pushing(0), block := block);
    if newBlock.Some? then
      SetGet(s, g, x').(blocks := s.blocks + [newBlock.value], made := s.made[PoolOf(x) := s.made[PoolOf(x)] + 1])
    else SetGet(s, g, x').(free := s.free[PoolOf(x) := pool[..|pool| - 1]])
  }

  /** The next task goes to the Get's own handler, to another node, or nowhere when it is empty and remote. */
  function Pushed(x: Get): (x': Get)
    requires x.phase.Pushing? && x.phase.next < |x.tasks|
  {
    var k := x.phase.next;
    var stage := if Local(x, k) then Queued else if x.tasks[k].ix == [] then Skipped else Sent;
    SetStage(x, k, stage).(phase := if k + 1 == |x.tasks| then Waiting else Pushing(k + 1))
  }

  /** The counting section under the result's lock. */
  function Completed(x: Get, k: nat): (x': Get)
    requires k < |x.tasks|
  {
    var num := x.finishNum + |x.tasks[k].ix|;
    SetStage(x, k, Finished).(finishNum := num, finish := x.finish || num >= |x.reqs|)
  }

  // ----- runs

  /** Nothing loaded, nothing requested, nothing allocated. */
  function Initial(cfg: Config): State
  {
    State(seq(cfg.nodes, i => Node(0, None, map[])), [], [], [],
          seq(2 * cfg.nodes, i => []), seq(2 * cfg.nodes, i => 0))
  }

  /** Every step of the list is enabled when it is taken, starting from the initial state. */
  predicate Legal(cfg: Config, steps: seq<Step>)
    decreases |steps|, 0
  {
    steps == [] ||
    var n := |steps| - 1;
    Legal(cfg, steps[..n]) && Enabled(cfg, Final(cfg, steps[..n]), steps[n])
  }

  function Final(cfg: Config, steps: seq<Step>): (s: State)
    requires Legal(cfg, steps)
    decreases |steps|, 1
  {
    if steps == [] then Initial(cfg)
    else
      var n := |steps| - 1;
      Apply(cfg, Final(cfg, steps[..n]), steps[n])
  }
}
