/** The earlier placement of slices: slice s belongs to the node with number s modulo the number of nodes. */
module ResidueShards {
  import opened Arithmetic

  /** The count a node expects, computed when the model's meta data is read. */
  function LocalSliceNum(slices: nat, nodes: nat, id: nat): (k: nat)
    requires nodes > 0
  {
    slices / nodes + (if slices % nodes <= id then 0 else 1)
  }

  /** The slices below `n` the filter loop loads on node `id`. */
  function Mine(n: nat, nodes: nat, id: nat): (k: nat)
    requires nodes > 0
  {
    if n == 0 then 0 else Mine(n - 1, nodes, id) + (if (n - 1) % nodes == id then 1 else 0)
  }

  /** Adding one slice moves the remainder on by one, or back to zero with the quotient up. */
  lemma OneMore(n: nat, nodes: nat)
    requires nodes > 0
    ensures n % nodes + 1 < nodes ==> (n + 1) / nodes == n / nodes && (n + 1) % nodes == n % nodes + 1
    ensures n % nodes + 1 == nodes ==> (n + 1) / nodes == n / nodes + 1 && (n + 1) % nodes == 0
  {
    var q, r := n / nodes, n % nodes;
    assert n == q * nodes + r;
    if r + 1 < nodes {
      Quotient(n + 1, nodes, q, r + 1);
    } else {
      assert n + 1 == (q + 1) * nodes;
      Quotient(n + 1, nodes, q + 1, 0);
    }
  }

  /** The expected count is the number of slices the node's loop loads. */
  lemma {:induction false} ExpectedIsLoaded(slices: nat, nodes: nat, id: nat)
    requires id < nodes
    ensures LocalSliceNum(slices, nodes, id) == Mine(slices, nodes, id)
  {
    if slices == 0 {
      Quotient(0, nodes, 0, 0);
    } else {
      ExpectedIsLoaded(slices - 1, nodes, id);
      OneMore(slices - 1, nodes);
    }
  }

  /** Loads on the first `k` nodes together. */
  function MineTotal(slices: nat, nodes: nat, k: nat): (t: nat)
    requires nodes > 0
  {
    if k == 0 then 0 else MineTotal(slices, nodes, k - 1) + LocalSliceNum(slices, nodes, k - 1)
  }

  lemma {:induction false} PartialTotal(slices: nat, nodes: nat, k: nat)
    requires 0 < nodes && k <= nodes
    ensures MineTotal(slices, nodes, k) ==
            k * (slices / nodes) + (if k <= slices % nodes then k else slices % nodes)
  {
    if k > 0 {
      PartialTotal(slices, nodes, k - 1);
      assert k * (slices / nodes) == (k - 1) * (slices / nodes) + slices / nodes;
    }
  }

  /** The nodes' counts add up to the number of slices: none is loaded twice or left out. */
  lemma CountsAddUp(slices: nat, nodes: nat)
    requires 0 < nodes
    ensures MineTotal(slices, nodes, nodes) == slices
  {
    PartialTotal(slices, nodes, nodes);
    assert slices == nodes * (slices / nodes) + slices % nodes;
  }

  /** What the node keeps about a model. */
  class ModelMeta {
    const sliceNum: nat
    const localSliceNum: nat
    var loadNum: nat
    var loaded: bool

    constructor (sliceNum: nat, nodes: nat, id: nat)
      requires id < nodes
      ensures this.sliceNum == sliceNum && localSliceNum == Mine(sliceNum, nodes, id)
      ensures loadNum == 0 && !loaded
    {
      this.sliceNum := sliceNum;
      this.localSliceNum := sliceNum / nodes + (if sliceNum % nodes <= id then 0 else 1);
      loadNum, loaded := 0, false;
      new;
      ExpectedIsLoaded(sliceNum, nodes, id);
    }

    /** One slice download; it counts only when it succeeds. */
    method LoadSlice(ok: bool)
      modifies this`loadNum
      ensures loadNum == old(loadNum) + (if ok then 1 else 0)
    {
      if ok {
        loadNum := loadNum + 1;
      }
    }

    /**
     The filter loop over all slices: the count ends at the expected one exactly when every download
     of this node's slices succeeds, and never passes it.
     */
    method LoadData(nodes: nat, id: nat, broken: set<nat>)
      requires id < nodes && loadNum == 0 && localSliceNum == Mine(sliceNum, nodes, id)
      modifies this`loadNum, this`loaded
      ensures loaded && loadNum <= localSliceNum
      ensures loadNum == localSliceNum <==>
              forall s: nat :: s < sliceNum && s % nodes == id ==> s !in broken
    {
      var s := 0;
      ghost var complete := true;
      while s < sliceNum
        invariant 0 <= s <= sliceNum && loadNum <= Mine(s, nodes, id)
        invariant complete <==> loadNum == Mine(s, nodes, id)
        invariant complete <==> forall t: nat :: t < s && t % nodes == id ==> t !in broken
      {
        if s % nodes == id {
          LoadSlice(s !in broken);
          complete := complete && s !in broken;
        }
        s := s + 1;
      }
      loaded := true;
    }
  }
}
