/**
 The batch of slice requests carried by one `Get`: where each request's bytes go in the
 output block, which node's task each request joins, and what the answer should be.
 */
module Requests {
  import opened Bytes

  type Name = string

  const TWO_31: nat := 0x8000_0000
  const TWO_32: nat := 0x1_0000_0000
  const TWO_64: nat := 0x1_0000_0000_0000_0000

  /** The size of one pool block, and of the stack buffer a worker reads into. */
  const BLOCK_SIZE: nat := 65536
  const READ_BUFFER: nat := 128

  /** The memory limit of one pool, and how many blocks that is. */
  const MAX_LIMIT: nat := 1073741824
  const POOL_BLOCKS: nat := 16384

  /** A 64-bit field of a protocol message. */
  type Word = w: int | 0 <= w < TWO_64

  datatype SliceRequest = SliceRequest(partition: Word, start: Word, len: Word)

  /** A request inside a task: the fields of the request and its offset in the output block. */
  datatype SliceData = SliceData(partition: Word, start: Word, len: Word, pos: nat)

  /**
   A 64-bit field that passes through an `int` parameter and is stored as 64 bits again:
   kept modulo 2^32 and sign-extended.
   */
  function Narrow(w: Word): (r: Word)
  {
    var low := w % TWO_32;
    if low < TWO_31 then low else low + (TWO_64 - TWO_32)
  }

  /** Narrowing changes nothing exactly on the fields that fit a non-negative `int` or its sign extension. */
  lemma NarrowFixed(w: Word)
    ensures Narrow(Narrow(w)) == Narrow(w)
    ensures Narrow(w) == w <==> w < TWO_31 || w >= TWO_64 - TWO_31
  {
    var low := w % TWO_32;
    if low >= TWO_31 {
      assert (low + (TWO_64 - TWO_32)) % TWO_32 == low by {
        assert low + (TWO_64 - TWO_32) == low + 0xFFFF_FFFF * TWO_32;
      }
    }
  }

  /** The offset of request `i`: the total length of the requests before it. */
  function Pos(reqs: seq<SliceRequest>, i: nat): (p: nat)
    requires i <= |reqs|
  {
    if i == 0 then 0 else Pos(reqs, i - 1) + reqs[i - 1].len
  }

  function Total(reqs: seq<SliceRequest>): (size: nat)
  {
    Pos(reqs, |reqs|)
  }

  /** What a caller of `Get` must send: see the README for why each bound is the code's own. */
  predicate Admissible(reqs: seq<SliceRequest>)
  {
    && (forall i :: 0 <= i < |reqs| ==> reqs[i].len <= READ_BUFFER && reqs[i].partition < TWO_31)
    && Total(reqs) <= BLOCK_SIZE
  }

  /** Earlier requests end before later ones begin. */
  lemma {:induction false} PosOrder(reqs: seq<SliceRequest>, i: nat, j: nat)
    requires i < j <= |reqs|
    ensures Pos(reqs, i) + reqs[i].len <= Pos(reqs, j)
  {
    if i + 1 < j {
      PosOrder(reqs, i, j - 1);
    }
  }

  lemma PosInside(reqs: seq<SliceRequest>, i: nat)
    requires i < |reqs|
    ensures Pos(reqs, i) + reqs[i].len <= Total(reqs)
  {
    PosOrder(reqs, i, |reqs|);
  }

  /** Request `i`'s interval of the output block contains byte `x`. */
  predicate Covers(reqs: seq<SliceRequest>, i: nat, x: nat)
  {
    i < |reqs| && Pos(reqs, i) <= x < Pos(reqs, i) + reqs[i].len
  }

  /** The intervals tile [0, Total): every byte lies in exactly one of them, and none reaches outside. */
  lemma IntervalsTile(reqs: seq<SliceRequest>, x: nat)
    ensures x < Total(reqs) <==> exists i :: Covers(reqs, i, x)
    ensures forall i, j :: Covers(reqs, i, x) && Covers(reqs, j, x) ==> i == j
  {
    if x < Total(reqs) {
      var i := Owner(reqs, |reqs|, x);
      assert Covers(reqs, i, x);
    }
    forall i | Covers(reqs, i, x)
      ensures x < Total(reqs)
    {
      PosInside(reqs, i);
    }
    forall i, j | Covers(reqs, i, x) && Covers(reqs, j, x)
      ensures i == j
    {
      if i < j {
        PosOrder(reqs, i, j);
      } else if j < i {
        PosOrder(reqs, j, i);
      }
    }
  }

  lemma {:induction false} Owner(reqs: seq<SliceRequest>, n: nat, x: nat) returns (i: nat)
    requires n <= |reqs| && x < Pos(reqs, n)
    ensures i < n && Covers(reqs, i, x)
  {
    if x < Pos(reqs, n - 1) {
      i := Owner(reqs, n - 1, x);
    } else {
      i := n - 1;
    }
  }

  /** The task entry built for request `i`. */
  function Chunk(reqs: seq<SliceRequest>, i: nat): (c: SliceData)
    requires i < |reqs|
  {
    SliceData(Narrow(reqs[i].partition), Narrow(reqs[i].start), Narrow(reqs[i].len), Pos(reqs, i))
  }

  /** The requests that `route` sends to bucket `k`, in request order. */
  function Indices(route: seq<nat>, k: nat): (ix: seq<nat>)
    ensures forall j :: 0 <= j < |ix| ==> ix[j] < |route|
  {
    if route == [] then []
    else
      var n := |route| - 1;
      Indices(route[..n], k) + (if route[n] == k then [n] else [])
  }

  /** Bucket `k` holds exactly the requests routed to it. */
  lemma {:induction false} IndicesMember(route: seq<nat>, k: nat, i: nat)
    ensures i in Indices(route, k) <==> i < |route| && route[i] == k
  {
    if route != [] {
      IndicesMember(route[..|route| - 1], k, i);
    }
  }

  predicate Increasing(ix: seq<nat>)
  {
    forall a, b :: 0 <= a < b < |ix| ==> ix[a] < ix[b]
  }

  /** Buckets keep request order, so no request appears twice in one bucket. */
  lemma {:induction false} IndicesIncrease(route: seq<nat>, k: nat)
    ensures Increasing(Indices(route, k))
  {
    if route != [] {
      var n := |route| - 1;
      IndicesIncrease(route[..n], k);
      var front := Indices(route[..n], k);
      assert forall j :: 0 <= j < |front| ==> front[j] < n;
      var ix := Indices(route, k);
      assert ix == front + (if route[n] == k then [n] else []);
      forall a, b | 0 <= a < b < |ix|
        ensures ix[a] < ix[b]
      {
        assert ix[a] == front[a];
        if b < |front| {
          assert ix[b] == front[b];
        }
      }
    }
  }

  /** How many requests land in the first `w` buckets. */
  function Routed(route: seq<nat>, w: nat): (n: nat)
  {
    if w == 0 then 0 else Routed(route, w - 1) + |Indices(route, w - 1)|
  }

  /** No request is lost or duplicated by the bucketing. */
  lemma {:induction false} RoutedAll(route: seq<nat>, w: nat)
    requires forall i :: 0 <= i < |route| ==> route[i] < w
    ensures Routed(route, w) == |route|
  {
    if route == [] {
      RoutedNone(w);
    } else {
      var n := |route| - 1;
      RoutedAll(route[..n], w);
      RoutedSnoc(route, w);
    }
  }

  lemma {:induction false} RoutedNone(w: nat)
    ensures Routed([], w) == 0
  {
    if w > 0 {
      RoutedNone(w - 1);
    }
  }

  lemma {:induction false} RoutedSnoc(route: seq<nat>, w: nat)
    requires route != []
    ensures var n := |route| - 1;
            Routed(route, w) == Routed(route[..n], w) + (if route[n] < w then 1 else 0)
  {
    if w > 0 {
      RoutedSnoc(route, w - 1);
    }
  }

  /** Two different places in two buckets always name two different requests. */
  lemma IndicesDisjoint(route: seq<nat>, k1: nat, c1: nat, k2: nat, c2: nat)
    requires c1 < |Indices(route, k1)| && c2 < |Indices(route, k2)|
    requires k1 != k2 || c1 != c2
    ensures Indices(route, k1)[c1] != Indices(route, k2)[c2]
  {
    IndicesMember(route, k1, Indices(route, k1)[c1]);
    IndicesMember(route, k2, Indices(route, k2)[c2]);
    IndicesIncrease(route, k1);
  }

  /** The entries of one task, as `Get` builds them. */
  function Entries(reqs: seq<SliceRequest>, ix: seq<nat>): (list: seq<SliceData>)
    requires forall j :: 0 <= j < |ix| ==> ix[j] < |reqs|
  {
    seq(|ix|, j requires 0 <= j < |ix| => Chunk(reqs, ix[j]))
  }

  /** The message that carries a task's entries to another node: offsets are not sent. */
  function ToWire(list: seq<SliceData>): (reqs: seq<SliceRequest>)
  {
    seq(|list|, j requires 0 <= j < |list| => SliceRequest(list[j].partition, list[j].start, list[j].len))
  }

  /** The bytes of `block` at the place of request `i`. */
  function Slot(block: seq<Byte>, reqs: seq<SliceRequest>, i: nat): (r: seq<Byte>)
    requires Total(reqs) <= |block| && i < |reqs|
    ensures |r| == reqs[i].len
  {
    PosInside(reqs, i);
    Cut(block, Pos(reqs, i), reqs[i].len)
  }

  /** The block cut back into one answer per request. */
  function Gathered(block: seq<Byte>, reqs: seq<SliceRequest>): (out: seq<seq<Byte>>)
    requires Total(reqs) <= |block|
  {
    seq(|reqs|, i requires 0 <= i < |reqs| => Slot(block, reqs, i))
  }
}
