/**
 The two `Get` handlers and the client between them, each in its own form, run one after the other.
 The cluster model covers every other order.
 */
module Services {
  import opened Bytes
  import opened Requests
  import opened Sharding
  import opened BlockPool
  import opened ReadPath

  datatype InternalRequest = InternalRequest(name: Name, reqs: seq<SliceRequest>)

  // ----- ModelServiceImpl: handing out and collecting

  datatype Bucket = Bucket(num: nat, list: seq<SliceData>)

  lemma IndicesSnoc(route: seq<nat>, node: nat, k: nat)
    ensures Indices(route + [node], k) == Indices(route, k) + (if node == k then [|route|] else [])
  {
    assert (route + [node])[..|route|] == route;
  }

  /** The bucket of node `n` once the requests of `route` have been handed out. */
  function BucketOf(reqs: seq<SliceRequest>, route: seq<nat>, n: nat): (b: Bucket)
    requires |route| <= |reqs|
  {
    Bucket(|Indices(route, n)|, Entries(reqs, Indices(route, n)))
  }

  lemma BucketNext(reqs: seq<SliceRequest>, route: seq<nat>, node: nat, n: nat)
    requires |route| < |reqs|
    ensures var b := BucketOf(reqs, route, n);
            BucketOf(reqs, route + [node], n) ==
            (if n == node then Bucket(b.num + 1, b.list + [Chunk(reqs, |route|)]) else b)
  {
    IndicesSnoc(route, node, n);
    if n == node {
      assert Entries(reqs, Indices(route + [node], n)) == BucketOf(reqs, route, n).list + [Chunk(reqs, |route|)];
    }
  }

  /**
   The first loop of `Get`: offsets by a running sum, one bucket per node. Bucket n ends with exactly
   the requests routed to node n, in request order.
   */
  method Scatter(reqs: seq<SliceRequest>, nodes: nat, k: nat)
    returns (buckets: seq<Bucket>, size: nat, ghost route: seq<nat>)
    requires Admissible(reqs) && nodes > 0 && k > 0
    ensures size == Total(reqs)
    ensures |route| == |reqs| && forall i :: 0 <= i < |reqs| ==> route[i] == NodeForSlice(k, nodes, reqs[i].partition)
    ensures |buckets| == nodes
    ensures forall n :: 0 <= n < nodes ==>
              buckets[n].list == Entries(reqs, Indices(route, n)) && buckets[n].num == |Indices(route, n)|
  {
    buckets := seq(nodes, _ => Bucket(0, []));
    size := 0;
    route := [];
    var i := 0;
    while i < |reqs|
      invariant 0 <= i == |route| <= |reqs|
      invariant size == Pos(reqs, i)
      invariant forall j :: 0 <= j < i ==> route[j] == NodeForSlice(k, nodes, reqs[j].partition)
      invariant |buckets| == nodes && forall n :: 0 <= n < nodes ==> buckets[n] == BucketOf(reqs, route, n)
    {
      var sr := reqs[i];
      var d := SliceData(Narrow(sr.partition), Narrow(sr.start), Narrow(sr.len), size);
      size := size + sr.len;
      var node := NodeForSlice(k, nodes, sr.partition);
      forall n | 0 <= n < nodes
        ensures BucketOf(reqs, route + [node], n) ==
                (if n == node then Bucket(buckets[n].num + 1, buckets[n].list + [d]) else buckets[n])
      {
        BucketNext(reqs, route, node, n);
      }
      buckets := buckets[node := Bucket(buckets[node].num + 1, buckets[node].list + [d])];
      route := route + [node];
      i := i + 1;
    }
  }

  /** The last loop of `Get`: the block cut back into answers by a running offset. */
  method Gather(data: array<Byte>, reqs: seq<SliceRequest>) returns (out: seq<seq<Byte>>)
    requires Total(reqs) <= data.Length
    ensures out == Gathered(data[..], reqs)
  {
    ghost var mem := data[..];
    out := [];
    var pos := 0;
    var i := 0;
    while i < |reqs|
      invariant 0 <= i == |out| <= |reqs| && pos == Pos(reqs, i)
      invariant forall j :: 0 <= j < i ==> out[j] == Slot(mem, reqs, j)
    {
      PosInside(reqs, i);
      out := out + [data[pos..pos + reqs[i].len]];
      assert out[i] == Slot(mem, reqs, i);
      pos := pos + reqs[i].len;
      i := i + 1;
    }
  }

  /** All the requests of a batch, in order. */
  function All(n: nat): (ix: seq<nat>)
    ensures |ix| == n && forall j :: 0 <= j < n ==> ix[j] == j
  {
    seq(n, j requires 0 <= j < n => j)
  }

  /** An entry of a whole batch: its request's offset and length, unchanged by narrowing. */
  lemma EntryOk(reqs: seq<SliceRequest>, i: nat)
    requires Admissible(reqs) && i < |reqs|
    ensures var d := Entries(reqs, All(|reqs|))[i];
            d.pos == Pos(reqs, i) && d.len == reqs[i].len <= READ_BUFFER && Narrowed(d) && d.pos + d.len <= Total(reqs)
  {
    PosInside(reqs, i);
    NarrowFixed(reqs[i].partition);
    NarrowFixed(reqs[i].start);
    NarrowFixed(reqs[i].len);
  }

  lemma EntriesApart(reqs: seq<SliceRequest>, i: nat, j: nat)
    requires Admissible(reqs) && i < j < |reqs|
    ensures var list := Entries(reqs, All(|reqs|)); list[i].pos + list[i].len <= list[j].pos
  {
    EntryOk(reqs, i);
    EntryOk(reqs, j);
    PosOrder(reqs, i, j);
  }

  /** The entries of a whole batch lie one after another inside a block. */
  lemma EntriesOk(reqs: seq<SliceRequest>)
    requires Admissible(reqs)
    ensures var list := Entries(reqs, All(|reqs|));
            && Fits(list, Total(reqs)) && Apart(list)
            && forall i :: 0 <= i < |list| ==>
                 list[i].pos == Pos(reqs, i) && list[i].len == reqs[i].len <= READ_BUFFER && Narrowed(list[i])
  {
    forall i | 0 <= i < |reqs| {
      EntryOk(reqs, i);
    }
    forall i, j | 0 <= i < j < |reqs| {
      EntriesApart(reqs, i, j);
    }
  }

  /** What was copied slot by slot comes back answer by answer. */
  lemma GatherWritten(mem: seq<Byte>, reqs: seq<SliceRequest>, vals: seq<seq<Byte>>)
    requires Admissible(reqs) && Total(reqs) <= |mem| && Sized(Entries(reqs, All(|reqs|)), vals)
    ensures Fits(Entries(reqs, All(|reqs|)), |mem|)
    ensures Gathered(Written(mem, Entries(reqs, All(|reqs|)), vals), reqs) == vals
  {
    var list := Entries(reqs, All(|reqs|));
    EntriesOk(reqs);
    WrittenSlots(mem, list, vals);
    var after := Written(mem, list, vals);
    forall i | 0 <= i < |reqs|
      ensures Gathered(after, reqs)[i] == vals[i]
    {
      assert Cut(after, list[i].pos, list[i].len) == vals[i];
    }
  }

  // ----- InternalModelServiceImpl

  /** The internal service's own loop: every request in one list, offsets from zero again. */
  method BuildTask(reqs: seq<SliceRequest>) returns (list: seq<SliceData>, num: nat, size: nat)
    requires Admissible(reqs)
    ensures list == Entries(reqs, All(|reqs|)) && num == |list| && size == Total(reqs)
  {
    list, num, size := [], 0, 0;
    var i := 0;
    while i < |reqs|
      invariant 0 <= i == num == |list| <= |reqs| && size == Pos(reqs, i)
      invariant forall j :: 0 <= j < i ==> list[j] == Chunk(reqs, j)
    {
      list := list + [SliceData(Narrow(reqs[i].partition), Narrow(reqs[i].start), Narrow(reqs[i].len), size)];
      size := size + reqs[i].len;
      num := num + 1;
      i := i + 1;
    }
  }

  /** The tasks other calls have queued: well formed, each writing to a block that is not in this pool's list. */
  ghost predicate OthersQueued(handler: ModelHander, allocator: MemoryAllocator)
    reads handler, allocator
  {
    forall t :: t in handler.queue ==> TaskOk(t) && t.result.data !in allocator.memoryList
  }

  /**
   A call from another node, served by one worker: the tasks queued before it are worked off first. The
   answers are what the worker could read, one per request, and the block is back in the pool. None when the
   call has to wait for a block; then nothing has changed.
   */
  method InternalGet(reqs: seq<SliceRequest>, handler: ModelHander, allocator: MemoryAllocator)
    returns (status: Option<int>, out: seq<seq<Byte>>)
    requires Admissible(reqs) && allocator.Valid() && OthersQueued(handler, allocator)
    modifies handler`queue, allocator, allocator.memoryList
    modifies (set t | t in handler.queue :: t.result)`finishNum, (set t | t in handler.queue :: t.result)`finish
    modifies set t | t in handler.queue :: t.result.data
    ensures status == if old(allocator.Ready()) then Some(0) else None
    ensures status.None? ==>
              && out == [] && unchanged(handler, allocator)
              && forall t :: t in handler.queue ==> unchanged(t.result, t.result.data)
    ensures status.Some? ==> Reads(handler.readers, Entries(reqs, All(|reqs|)), out) && handler.queue == []
    ensures allocator.Valid() && allocator.lent == old(allocator.lent)
  {
    var list, num, size := BuildTask(reqs);
    EntriesOk(reqs);
    var lent := allocator.Allocate(size);
    if lent.None? {
      return None, [];
    }
    var block := lent.value;
    ghost var free := old(allocator.memoryList);
    assert free != [] ==> free[|free| - 1] == (allocator.memoryList + [block])[|allocator.memoryList|];
    assert fresh(block) || block in free;
    var result := new RequestResult(|reqs|, size, block);
    ghost var mem := block[..];
    ghost var vals := Serve(handler, RequestTask(num, handler.name, result, list));
    GatherWritten(mem, reqs, vals);
    out := Gather(block, reqs);
    allocator.Deallocate(block);
    status := Some(0);
  }

  /** A task is pushed and, after those queued before it, worked off. */
  method Serve(handler: ModelHander, pushed: RequestTask) returns (ghost vals: seq<seq<Byte>>)
    requires TaskOk(pushed) && forall t :: t in handler.queue ==> TaskOk(t)
    requires forall t :: t in handler.queue ==> t.result != pushed.result && t.result.data != pushed.result.data
    modifies handler`queue, pushed.result`finishNum, pushed.result`finish, pushed.result.data
    modifies (set t | t in handler.queue :: t.result)`finishNum, (set t | t in handler.queue :: t.result)`finish
    modifies set t | t in handler.queue :: t.result.data
    ensures handler.queue == []
    ensures Reads(handler.readers, pushed.list, vals)
    ensures pushed.result.data[..] == Written(old(pushed.result.data[..]), pushed.list, vals)
    ensures pushed.result.finishNum == old(pushed.result.finishNum) + pushed.num
    ensures pushed.result.finish == (old(pushed.result.finish) || pushed.result.finishNum >= pushed.result.reqNum)
  {
    ghost var others := handler.queue;
    handler.Push(pushed);
    WorkOff(handler, pushed, others);
    var task := handler.Pop();
    assert task == ([task] + handler.queue)[0] == pushed;
    vals := handler.ProcessTask(task);
  }

  /** The worker takes and processes what stands before `last` in the queue. */
  method WorkOff(handler: ModelHander, last: RequestTask, ghost others: seq<RequestTask>)
    requires handler.queue == others + [last]
    requires forall t :: t in others ==> TaskOk(t)
    modifies handler`queue
    modifies (set t | t in others :: t.result)`finishNum, (set t | t in others :: t.result)`finish
    modifies set t | t in others :: t.result.data
    ensures handler.queue == [last]
  {
    ghost var left := others;
    while |handler.queue| > 1
      invariant handler.queue == left + [last]
      invariant forall t :: t in left ==> t in others
      decreases |handler.queue|
    {
      assert handler.queue == [left[0]] + (left[1..] + [last]);
      var task := handler.Pop();
      assert task == ([task] + handler.queue)[0] == left[0];
      assert handler.queue == ([task] + handler.queue)[1..] == left[1..] + [last];
      left := left[1..];
      ghost var vals := handler.ProcessTask(task);
    }
  }

  // ----- ModelClient

  /** `Push`: nothing is sent for an empty task; otherwise the entries without their offsets. */
  method ClientPush(t: RequestTask) returns (request: Option<InternalRequest>)
    requires t.num == |t.list|
    ensures t.num == 0 ==> request == None
    ensures t.num > 0 ==> request == Some(InternalRequest(t.name, ToWire(t.list)))
  {
    if t.num <= 0 {
      return None;
    }
    var reqs: seq<SliceRequest> := [];
    var i := 0;
    while i < t.num
      invariant 0 <= i == |reqs| <= t.num
      invariant forall j :: 0 <= j < i ==> reqs[j] == ToWire(t.list)[j]
    {
      var sd := t.list[i];
      reqs := reqs + [SliceRequest(sd.partition, sd.start, sd.len)];
      i := i + 1;
    }
    assert reqs == ToWire(t.list);
    request := Some(InternalRequest(t.name, reqs));
  }

  /** What stands in memory behind each answer. */
  predicate Behind(answers: seq<seq<Byte>>, past: seq<seq<Byte>>)
  {
    |past| == |answers| && forall i :: 0 <= i < |past| ==> |past[i]| == READ_BUFFER
  }

  predicate Short(list: seq<SliceData>)
  {
    forall i :: 0 <= i < |list| ==> list[i].len <= READ_BUFFER
  }

  /** The answers cut to the lengths asked for; one that is too short is read on past its end. */
  function Trimmed(list: seq<SliceData>, answers: seq<seq<Byte>>, past: seq<seq<Byte>>): (vals: seq<seq<Byte>>)
    requires |list| <= |answers| && Behind(answers, past) && Short(list)
    ensures Sized(list, vals)
  {
    seq(|list|, i requires 0 <= i < |list| => (answers[i] + past[i])[..list[i].len])
  }

  /**
   `HandleResponse`: a failed call or a reply with too few answers marks the Get failed, counts nothing and
   touches no byte; otherwise every answer goes to its entry's offset and the task is counted.
   */
  method HandleResponse(t: RequestTask, ok: bool, answers: seq<seq<Byte>>, past: seq<seq<Byte>>)
    requires TaskOk(t) && Behind(answers, past)
    modifies t.result`finishNum, t.result`finish, t.result`faild, t.result.data
    ensures !ok || |answers| < t.num ==>
              && t.result.faild
              && t.result.finishNum == old(t.result.finishNum) && t.result.finish == old(t.result.finish)
              && t.result.data[..] == old(t.result.data[..])
    ensures ok && |answers| >= t.num ==>
              && t.result.faild == old(t.result.faild)
              && t.result.data[..] == Written(old(t.result.data[..]), t.list, Trimmed(t.list, answers, past))
              && t.result.finishNum == old(t.result.finishNum) + t.num
              && t.result.finish == (old(t.result.finish) || t.result.finishNum >= t.result.reqNum)
  {
    if !ok {
      t.result.Fail();
      return;
    }
    if |answers| < t.num {
      t.result.Fail();
      return;
    }
    CopyAnswers(t, answers, past);
    t.result.Count(t.num);
  }

  /** The loop of `HandleResponse`: each answer to its entry's offset. */
  method CopyAnswers(t: RequestTask, answers: seq<seq<Byte>>, past: seq<seq<Byte>>)
    requires TaskOk(t) && Behind(answers, past) && t.num <= |answers|
    modifies t.result.data
    ensures t.result.data[..] == Written(old(t.result.data[..]), t.list, Trimmed(t.list, answers, past))
  {
    var data := t.result.data;
    ghost var mem := data[..];
    ghost var vals := Trimmed(t.list, answers, past);
    var i := 0;
    while i < t.num
      invariant 0 <= i <= t.num
      invariant data[..] == Written(mem, t.list[..i], vals[..i])
    {
      var sd := t.list[i];
      CopyBytes(data, sd.pos, (answers[i] + past[i])[..sd.len]);
      WrittenNext(mem, t.list, vals, i);
      i := i + 1;
    }
    assert t.list[..t.num] == t.list && vals[..t.num] == vals;
  }

  // ----- the whole hop

  /** Sent on and rebuilt, a task's entries name the same bytes; only the offsets start from zero again. */
  lemma RebuiltEntries(list: seq<SliceData>)
    requires forall i :: 0 <= i < |list| ==> Narrowed(list[i])
    ensures var there := Entries(ToWire(list), All(|list|));
            && |there| == |list|
            && forall i :: 0 <= i < |list| ==>
                 && there[i].partition == list[i].partition
                 && there[i].start == list[i].start
                 && there[i].len == list[i].len
  {
  }

  /** The replies fit the original entries and are read back whole, whatever stands behind them. */
  lemma RebuiltReads(readers: map<nat, seq<Byte>>, list: seq<SliceData>, out: seq<seq<Byte>>, past: seq<seq<Byte>>)
    requires Short(list) && forall i :: 0 <= i < |list| ==> Narrowed(list[i])
    requires Reads(readers, Entries(ToWire(list), All(|list|)), out) && Behind(out, past)
    ensures Reads(readers, list, out)
    ensures Trimmed(list, out, past) == out
  {
    var there := Entries(ToWire(list), All(|list|));
    RebuiltEntries(list);
    forall i | 0 <= i < |list| && InReach(readers, list[i])
      ensures out[i] == Stored(readers, list[i])
    {
      assert InReach(readers, there[i]);
    }
    forall i | 0 <= i < |list|
      ensures |out[i]| == list[i].len
    {
      assert |out[i]| == there[i].len;
    }
    assert forall i :: 0 <= i < |list| ==> (out[i] + past[i])[..list[i].len] == out[i];
  }

  /**
   Sending a task to another node has the contract of working it off locally with that node's slices
   (`ModelHander.ProcessTask`): same bytes at the same offsets, same counters, nothing else touched; unless the
   other node has to wait for a block, and then nothing has happened yet.
   */
  method RemoteHop(t: RequestTask, handler: ModelHander, allocator: MemoryAllocator)
    returns (replied: bool, ghost vals: seq<seq<Byte>>)
    requires TaskOk(t) && t.num > 0 && Admissible(ToWire(t.list))
    requires allocator.Valid() && t.result.data !in allocator.memoryList
    requires OthersQueued(handler, allocator)
    requires forall q :: q in handler.queue ==> q.result != t.result && q.result.data != t.result.data
    modifies t.result`finishNum, t.result`finish, t.result`faild, t.result.data
    modifies handler`queue, allocator, allocator.memoryList
    modifies (set q | q in handler.queue :: q.result)`finishNum, (set q | q in handler.queue :: q.result)`finish
    modifies set q | q in handler.queue :: q.result.data
    ensures replied == old(allocator.Ready())
    ensures !replied ==> unchanged(t.result, t.result.data, handler, allocator)
    ensures replied ==> Reads(handler.readers, t.list, vals)
    ensures replied ==> t.result.data[..] == Written(old(t.result.data[..]), t.list, vals)
    ensures replied ==>
              && t.result.finishNum == old(t.result.finishNum) + t.num
              && t.result.finish == (old(t.result.finish) || t.result.finishNum >= t.result.reqNum)
    ensures t.result.faild == old(t.result.faild)
    ensures allocator.Valid() && allocator.lent == old(allocator.lent)
  {
    var request := ClientPush(t);
    var status, out := InternalGet(request.value.reqs, handler, allocator);
    if status.None? {
      return false, [];
    }
    var past := seq(|out|, _ => seq(READ_BUFFER, _ => 0));
    RebuiltReads(handler.readers, t.list, out, past);
    HandleResponse(t, true, out, past);
    replied, vals := true, out;
  }
}
