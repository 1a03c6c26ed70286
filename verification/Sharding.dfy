/**
 The two formulas that place slices on nodes: the range a node loads from a new model, and the
 node a request for a slice is sent to.
 */
module Sharding {
  import opened Arithmetic

  /** Slices per node, as both formulas use it. */
  function PerNode(slices: nat, nodes: nat): (k: nat)
    requires nodes > 0
  {
    slices / nodes
  }

  function LoadStart(slices: nat, nodes: nat, id: nat): (lo: nat)
    requires nodes > 0
  {
    PerNode(slices, nodes) * id
  }

  function LoadEnd(slices: nat, nodes: nat, id: nat): (hi: nat)
    requires nodes > 0
  {
    var k := PerNode(slices, nodes);
    var end := k * id + k;
    if end + k > slices then slices else end
  }

  /** Node `id` loads slice `s`. */
  predicate Loads(slices: nat, nodes: nat, id: nat, s: nat)
    requires nodes > 0
  {
    LoadStart(slices, nodes, id) <= s < LoadEnd(slices, nodes, id)
  }

  /** The node a request for slice `s` is sent to, with `k` slices per node. */
  function NodeForSlice(k: nat, nodes: nat, s: nat): (node: nat)
    requires k > 0 && nodes > 0
    ensures node < nodes
  {
    if s / k >= nodes then nodes - 1 else s / k
  }

  /** Slice `s` lies past the last full shard while no node takes that remainder. */
  predicate Stranded(slices: nat, nodes: nat, s: nat)
    requires nodes > 0
  {
    slices % nodes >= slices / nodes && nodes * PerNode(slices, nodes) <= s < slices
  }

  lemma Split(slices: nat, nodes: nat)
    requires 0 < nodes
    ensures slices == nodes * PerNode(slices, nodes) + slices % nodes
    ensures nodes <= slices ==> PerNode(slices, nodes) > 0
  {
  }

  /** Every node but the last loads exactly its own k slices; the last also takes the remainder when it is below k. */
  lemma LoadEndValue(slices: nat, nodes: nat, id: nat)
    requires 1 <= nodes <= slices && id < nodes
    ensures var k := PerNode(slices, nodes);
            && 0 < k
            && LoadStart(slices, nodes, id) == id * k
            && LoadEnd(slices, nodes, id) ==
               (if id == nodes - 1 && slices % nodes < k then slices else (id + 1) * k)
  {
    var k := PerNode(slices, nodes);
    Split(slices, nodes);
    assert k * id + k == (id + 1) * k;
    assert k * id + k + k == (id + 2) * k;
    if id < nodes - 1 {
      MulLe(id + 2, nodes, k);
    } else {
      assert k * id + k == nodes * k;
    }
  }

  /** The load range lies inside the model, also when there are more nodes than slices. */
  lemma LoadRangeInside(slices: nat, nodes: nat, id: nat)
    requires id < nodes
    ensures LoadStart(slices, nodes, id) <= LoadEnd(slices, nodes, id) <= slices
  {
    var k := PerNode(slices, nodes);
    Split(slices, nodes);
    MulLe(id + 1, nodes, k);
    assert (id + 1) * k == k * id + k;
  }

  /** A node loads slice `s` exactly when `s` is routed to it and is not stranded. */
  lemma RouteAgrees(slices: nat, nodes: nat, id: nat, s: nat)
    requires 1 <= nodes <= slices && id < nodes && s < slices
    ensures PerNode(slices, nodes) > 0
    ensures Loads(slices, nodes, id, s) <==>
            NodeForSlice(PerNode(slices, nodes), nodes, s) == id && !Stranded(slices, nodes, s)
  {
    var k := PerNode(slices, nodes);
    Split(slices, nodes);
    LoadEndValue(slices, nodes, id);
    QuotientAtLeast(s, k, id);
    QuotientAtLeast(s, k, id + 1);
    QuotientAtLeast(s, k, nodes);
    assert nodes * k == k * nodes;
  }

  /**
   Loading and routing agree on every slice, each slice being loaded by the one node it is routed to,
   exactly when the remainder of the division is smaller than the quotient.
   */
  lemma ShardsAgree(slices: nat, nodes: nat)
    requires 1 <= nodes <= slices
    ensures PerNode(slices, nodes) > 0
    ensures (forall s, id :: 0 <= s < slices && 0 <= id < nodes ==>
              (Loads(slices, nodes, id, s) <==> NodeForSlice(PerNode(slices, nodes), nodes, s) == id))
            <==> slices % nodes < slices / nodes
  {
    var k := PerNode(slices, nodes);
    Split(slices, nodes);
    forall s, id | 0 <= s < slices && 0 <= id < nodes
      ensures Loads(slices, nodes, id, s) <==>
              NodeForSlice(k, nodes, s) == id && !Stranded(slices, nodes, s)
    {
      RouteAgrees(slices, nodes, id, s);
    }
    if slices % nodes >= slices / nodes {
      var s := nodes * k;
      assert Stranded(slices, nodes, s);
      var id := NodeForSlice(k, nodes, s);
      assert !Loads(slices, nodes, id, s);
    }
  }

  /** The stranded slices are routed to the last node and loaded by no node; every other slice is loaded. */
  lemma StrandedSlices(slices: nat, nodes: nat, s: nat)
    requires 1 <= nodes <= slices && s < slices
    ensures (forall id :: 0 <= id < nodes ==> !Loads(slices, nodes, id, s)) <==> Stranded(slices, nodes, s)
    ensures PerNode(slices, nodes) > 0
    ensures Stranded(slices, nodes, s) ==> NodeForSlice(PerNode(slices, nodes), nodes, s) == nodes - 1
  {
    var k := PerNode(slices, nodes);
    Split(slices, nodes);
    forall id | 0 <= id < nodes
      ensures Loads(slices, nodes, id, s) <==>
              NodeForSlice(k, nodes, s) == id && !Stranded(slices, nodes, s)
    {
      RouteAgrees(slices, nodes, id, s);
    }
    assert Loads(slices, nodes, NodeForSlice(k, nodes, s), s) <==> !Stranded(slices, nodes, s);
    QuotientAtLeast(s, k, nodes);
  }
}
