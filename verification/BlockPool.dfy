/** The pool of output blocks shared by the calls of one service: its memory bound and who owns what. */
module BlockPool {
  import opened Bytes
  import opened Requests

  /** The allocator with calls that do not overlap: each takes its lock for the whole of its work. */
  class MemoryAllocator {
    var useMemory: nat
    var memoryList: seq<array<Byte>>
    ghost var lent: set<array<Byte>>

    ghost predicate Valid()
      reads this
    {
      && (forall i :: 0 <= i < |memoryList| ==> memoryList[i].Length == BLOCK_SIZE && memoryList[i] !in lent)
      && (forall i, j :: 0 <= i < j < |memoryList| ==> memoryList[i] != memoryList[j])
      && (forall b :: b in lent ==> b.Length == BLOCK_SIZE)
      && useMemory == BLOCK_SIZE * (|memoryList| + |lent|)
      && useMemory <= MAX_LIMIT
    }

    /** A call that finds neither a free block nor room for a new one waits. */
    predicate Ready()
      reads this
    {
      memoryList != [] || useMemory + BLOCK_SIZE <= MAX_LIMIT
    }

    constructor ()
      ensures Valid() && memoryList == [] && lent == {} && useMemory == 0
    {
      useMemory := 0;
      memoryList := [];
      lent := {};
    }

    /** Every block has the same size: `size` is not looked at. None when the call has to wait for a block. */
    method Allocate(size: nat) returns (block: Option<array<Byte>>)
      requires Valid()
      modifies this
      ensures Valid()
      ensures block.Some? == old(Ready())
      ensures block.Some? <==> old(memoryList) != [] || |old(memoryList)| + |old(lent)| < POOL_BLOCKS
      ensures block.None? ==> unchanged(this)
      ensures block.Some? ==>
                && block.value.Length == BLOCK_SIZE
                && block.value !in old(lent) && lent == old(lent) + {block.value}
      ensures block.Some? && old(memoryList) == [] ==>
                fresh(block.value) && memoryList == [] && useMemory == old(useMemory) + BLOCK_SIZE
      ensures block.Some? && old(memoryList) != [] ==>
                old(memoryList) == memoryList + [block.value] && useMemory == old(useMemory)
    {
      if memoryList == [] {
        if useMemory + BLOCK_SIZE > MAX_LIMIT {
          return None;
        }
        var data := new Byte[BLOCK_SIZE];
        useMemory := useMemory + BLOCK_SIZE;
        block := Some(data);
      } else {
        block := Some(memoryList[|memoryList| - 1]);
        memoryList := memoryList[..|memoryList| - 1];
      }
      lent := lent + {block.value};
    }

    method Deallocate(block: array<Byte>)
      requires Valid() && block in lent
      modifies this
      ensures Valid()
      ensures memoryList == old(memoryList) + [block] && lent == old(lent) - {block}
      ensures useMemory == old(useMemory)
    {
      memoryList := memoryList + [block];
      lent := lent - {block};
    }
  }

  // ----- overlapping calls: `allocate` lets go of the lock around `new`

  /** Blocks are numbered in the order they are made. `window` holds the threads between unlock and relock. */
  datatype Pool = Pool(use: nat, free: seq<nat>, lent: set<nat>, made: nat, window: set<nat>, waiting: set<nat>)

  datatype PoolStep =
    | Unlock(t: nat)      // list empty, limit not reached: leave the lock and call new
    | Relock(t: nat)      // count the new block and hand it out
    | Wait(t: nat)        // list empty, limit reached
    | Take(t: nat)        // hand out the block at the back of the list, perhaps after waiting
    | Give(b: nat)        // deallocate

  predicate Can(n: nat, p: Pool, step: PoolStep)
  {
    match step
    case Unlock(t) => t < n && t !in p.window && t !in p.waiting && p.free == [] && p.use + BLOCK_SIZE <= MAX_LIMIT
    case Relock(t) => t in p.window
    case Wait(t) => t < n && t !in p.window && t !in p.waiting && p.free == [] && p.use + BLOCK_SIZE > MAX_LIMIT
    case Take(t) => t < n && t !in p.window && p.free != []
    case Give(b) => b in p.lent
  }

  function Do(n: nat, p: Pool, step: PoolStep): (p': Pool)
    requires Can(n, p, step)
  {
    match step
    case Unlock(t) => p.(window := p.window + {t})
    case Relock(t) =>
      p.(use := p.use + BLOCK_SIZE, lent := p.lent + {p.made}, made := p.made + 1, window := p.window - {t})
    case Wait(t) => p.(waiting := p.waiting + {t})
    case Take(t) =>
      var last := |p.free| - 1;
      p.(free := p.free[..last], lent := p.lent + {p.free[last]}, waiting := p.waiting - {t})
    case Give(b) => p.(free := p.free + [b], lent := p.lent - {b})
  }

  const EMPTY := Pool(0, [], {}, 0, {}, {})

  predicate PoolLegal(n: nat, steps: seq<PoolStep>)
    decreases |steps|, 0
  {
    steps == [] ||
    var k := |steps| - 1;
    PoolLegal(n, steps[..k]) && Can(n, PoolAfter(n, steps[..k]), steps[k])
  }

  function PoolAfter(n: nat, steps: seq<PoolStep>): (p: Pool)
    requires PoolLegal(n, steps)
    decreases |steps|, 1
  {
    if steps == [] then EMPTY
    else
      var k := |steps| - 1;
      Do(n, PoolAfter(n, steps[..k]), steps[k])
  }

  /** Each block made is in exactly one place, and the count is exact for the blocks handed over. */
  ghost predicate PoolOk(n: nat, p: Pool)
  {
    && (forall i :: 0 <= i < |p.free| ==> p.free[i] < p.made && p.free[i] !in p.lent)
    && (forall i, j :: 0 <= i < j < |p.free| ==> p.free[i] != p.free[j])
    && (forall b :: b in p.lent ==> b < p.made)
    && p.made == |p.free| + |p.lent|
    && p.use == BLOCK_SIZE * p.made
    && (forall t :: t in p.window ==> t < n)
    && p.use + BLOCK_SIZE * |p.window| <= MAX_LIMIT + (if n == 0 then 0 else (n - 1) * BLOCK_SIZE)
  }

  lemma {:induction false} BoundedSet(s: set<nat>, n: nat)
    requires forall t :: t in s ==> t < n
    ensures |s| <= n
  {
    if n == 0 {
      assert s == {};
    } else {
      BoundedSet(s - {n - 1}, n - 1);
      assert |s| <= |s - {n - 1}| + 1;
    }
  }

  lemma UnlockOk(n: nat, p: Pool, t: nat)
    requires PoolOk(n, p) && Can(n, p, Unlock(t))
    ensures PoolOk(n, Do(n, p, Unlock(t)))
  {
    BoundedSet(Do(n, p, Unlock(t)).window, n);
  }

  lemma TakeOk(n: nat, p: Pool, t: nat)
    requires PoolOk(n, p) && Can(n, p, Take(t))
    ensures PoolOk(n, Do(n, p, Take(t)))
  {
  }

  lemma GiveOk(n: nat, p: Pool, b: nat)
    requires PoolOk(n, p) && Can(n, p, Give(b))
    ensures PoolOk(n, Do(n, p, Give(b)))
  {
  }

  lemma PoolStepOk(n: nat, p: Pool, step: PoolStep)
    requires PoolOk(n, p) && Can(n, p, step)
    ensures PoolOk(n, Do(n, p, step))
  {
    match step
    case Unlock(t) => UnlockOk(n, p, t);
    case Take(t) => TakeOk(n, p, t);
    case Give(b) => GiveOk(n, p, b);
    case Relock(t) =>
    case Wait(t) =>
  }

  /**
   With `n` threads inside `allocate`, memory counted plus memory about to be counted stays below
   the limit plus one block for each thread but one; with one thread that is the limit itself.
   The count is always 65536 times the blocks free or lent.
   */
  lemma {:induction false} PoolBound(n: nat, steps: seq<PoolStep>)
    requires 0 < n && PoolLegal(n, steps)
    ensures var p := PoolAfter(n, steps);
            && PoolOk(n, p)
            && p.use == BLOCK_SIZE * (|p.free| + |p.lent|)
            && p.use + BLOCK_SIZE * |p.window| <= MAX_LIMIT + (n - 1) * BLOCK_SIZE
  {
    if steps != [] {
      var k := |steps| - 1;
      PoolBound(n, steps[..k]);
      PoolStepOk(n, PoolAfter(n, steps[..k]), steps[k]);
    }
  }

  // ----- the bound is exact

  ghost predicate PoolReaches(n: nat, p: Pool)
  {
    exists steps :: PoolLegal(n, steps) && PoolAfter(n, steps) == p
  }

  lemma PoolThen(n: nat, p: Pool, step: PoolStep)
    requires PoolReaches(n, p) && Can(n, p, step)
    ensures PoolReaches(n, Do(n, p, step))
  {
    var steps :| PoolLegal(n, steps) && PoolAfter(n, steps) == p;
    assert (steps + [step])[..|steps|] == steps;
    assert PoolLegal(n, steps + [step]) && PoolAfter(n, steps + [step]) == Do(n, p, step);
  }

  predicate Less(t: nat, k: nat)
  {
    t < k
  }

  function Below(k: nat): set<nat>
  {
    set t: nat | t < k && Less(t, k)
  }

  /** One thread alone can make `k` blocks, up to the limit. */
  lemma {:induction false} MakeBlocks(n: nat, k: nat)
    requires 0 < n && k * BLOCK_SIZE <= MAX_LIMIT
    ensures PoolReaches(n, Pool(k * BLOCK_SIZE, [], Below(k), k, {}, {}))
  {
    if k == 0 {
      assert PoolLegal(n, []) && PoolAfter(n, []) == EMPTY;
    } else {
      MakeBlocks(n, k - 1);
      var p := Pool((k - 1) * BLOCK_SIZE, [], Below(k - 1), k - 1, {}, {});
      PoolThen(n, p, Unlock(0));
      PoolThen(n, Do(n, p, Unlock(0)), Relock(0));
      assert Do(n, Do(n, p, Unlock(0)), Relock(0)).window == {};
    }
  }

  /** One block below the limit, `j` threads can leave the lock before any of them comes back. */
  lemma {:induction false} OpenWindow(n: nat, j: nat)
    requires 0 < n && j <= n
    ensures PoolReaches(n, Pool(16383 * BLOCK_SIZE, [], Below(16383), 16383, Below(j), {}))
  {
    if j == 0 {
      MakeBlocks(n, 16383);
    } else {
      OpenWindow(n, j - 1);
      PoolThen(n, Pool(16383 * BLOCK_SIZE, [], Below(16383), 16383, Below(j - 1), {}), Unlock(j - 1));
    }
  }

  /** `j` of the `n` threads that left the lock have come back with a block each. */
  function Returning(n: nat, j: nat): Pool
  {
    Pool((16383 + j) * BLOCK_SIZE, [], Below(16383 + j), 16383 + j, Below(n) - Below(j), {})
  }

  lemma ReturnOne(n: nat, j: nat)
    requires 0 < j <= n
    ensures Can(n, Returning(n, j - 1), Relock(j - 1))
    ensures Do(n, Returning(n, j - 1), Relock(j - 1)) == Returning(n, j)
  {
    var p' := Do(n, Returning(n, j - 1), Relock(j - 1));
    assert p'.window == Below(n) - Below(j);
    assert p'.lent == Below(16383 + j);
  }

  lemma {:induction false} CloseWindow(n: nat, j: nat)
    requires 0 < n && j <= n
    ensures PoolReaches(n, Returning(n, j))
  {
    if j == 0 {
      OpenWindow(n, n);
      assert Below(n) - Below(0) == Below(n);
    } else {
      CloseWindow(n, j - 1);
      ReturnOne(n, j);
      PoolThen(n, Returning(n, j - 1), Relock(j - 1));
    }
  }

  /** The bound is reached for every number of threads, so with two or more the limit really is passed. */
  lemma BoundIsReached(n: nat) returns (steps: seq<PoolStep>)
    requires 0 < n
    ensures PoolLegal(n, steps)
    ensures PoolAfter(n, steps).use == MAX_LIMIT + (n - 1) * BLOCK_SIZE
  {
    CloseWindow(n, n);
    steps :| PoolLegal(n, steps) && PoolAfter(n, steps) == Returning(n, n);
  }
}
