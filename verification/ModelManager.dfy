/** One node's model switching, in its own form: the shard loop, the switch, the delayed cleanup, the lookups. */
module ModelManager {
  import opened Arithmetic
  import opened Bytes
  import opened Requests
  import opened Sharding
  import opened ReadPath

  /** The numbers from `lo` up to, not including, `hi`. */
  function Range(lo: nat, hi: nat): (r: seq<nat>)
  {
    if hi <= lo then [] else Range(lo, hi - 1) + [hi - 1]
  }

  lemma {:induction false} RangeMembers(lo: nat, hi: nat)
    ensures forall s: nat :: s in Range(lo, hi) <==> lo <= s < hi
  {
    if lo < hi {
      RangeMembers(lo, hi - 1);
    }
  }

  class ModelManger {
    const nodeId: nat
    const nodeNum: nat
    var version: nat
    var slicesPerNode: nat
    var current: ModelHander?
    var tables: map<Name, ModelHander>
    var held: multiset<ModelHander>     // the handlers running calls have looked up, once for each
    ghost var sliceNum: nat             // of the model being served

    ghost predicate Valid()
      reads this, current, tables.Values
    {
      && nodeId < nodeNum
      && (forall m :: m in tables ==> tables[m].name == m)
      && (current != null ==>
            && current.name in tables && tables[current.name] == current
            && slicesPerNode == PerNode(sliceNum, nodeNum)
            && forall s: nat :: s in current.readers <==> Loads(sliceNum, nodeNum, nodeId, s))
    }

    constructor (nodeId: nat, nodeNum: nat)
      requires nodeId < nodeNum
      ensures Valid() && this.nodeId == nodeId && this.nodeNum == nodeNum
      ensures version == 0 && slicesPerNode == 0 && current == null && tables == map[] && held == multiset{}
    {
      this.nodeId, this.nodeNum := nodeId, nodeNum;
      version, slicesPerNode, current, tables, held := 0, 0, null, map[], multiset{};
    }

    /**
     The shard of a model: the loop over its slices, stopping at the first one that cannot be
     downloaded. It collects each slice the load range holds, once and in order.
     */
    method CollectShard(sliceNum: nat, available: set<nat>) returns (ok: bool, slices: seq<nat>)
      requires Valid()
      ensures ok <==> forall s :: 0 <= s < sliceNum && Loads(sliceNum, nodeNum, nodeId, s) ==> s in available
      ensures ok ==> slices == Range(LoadStart(sliceNum, nodeNum, nodeId), LoadEnd(sliceNum, nodeNum, nodeId))
    {
      var perNode := sliceNum / nodeNum;
      var start := perNode * nodeId;
      var end := start + perNode;
      if end + perNode > sliceNum {
        end := sliceNum;
      }
      ghost var first := LoadStart(sliceNum, nodeNum, nodeId);
      assert start == first && end == LoadEnd(sliceNum, nodeNum, nodeId);
      LoadRangeInside(sliceNum, nodeNum, nodeId);
      ok, slices := CollectRange(start, end, available);
    }

    /** The slices from `first` on, stopping at the first one that is not there. */
    method CollectRange(first: nat, end: nat, available: set<nat>) returns (ok: bool, slices: seq<nat>)
      requires first <= end
      ensures ok <==> forall s: nat :: first <= s < end ==> s in available
      ensures ok ==> slices == Range(first, end)
    {
      var start := first;
      slices := [];
      while start < end
        invariant first <= start <= end && slices == Range(first, start)
        invariant forall s: nat :: first <= s < start ==> s in available
      {
        if start !in available {
          return false, slices;
        }
        slices := slices + [start];
        start := start + 1;
      }
      ok := true;
    }

    /**
     `loadNewModel` up to the switch, the barrier having opened: build and load the handler for this
     node's shard, then publish version, routing and handler. Nothing changes when a slice is missing.
     */
    method LoadNewModel(name: Name, newSliceNum: nat, files: map<nat, seq<Byte>>) returns (ok: bool)
      requires Valid()
      modifies this`version, this`slicesPerNode, this`current, this`tables, this`sliceNum
      ensures Valid()
      ensures ok <==> forall s :: 0 <= s < newSliceNum && Loads(newSliceNum, nodeNum, nodeId, s) ==> s in files
      ensures !ok ==> unchanged(this)
      ensures ok ==> current != null && fresh(current) && current.name == name && current.queue == []
      ensures ok ==> version == old(version) + 1
      ensures ok ==> sliceNum == newSliceNum && slicesPerNode == PerNode(newSliceNum, nodeNum)
      ensures ok ==> tables == old(tables)[name := current]
      ensures ok ==> forall s: nat :: s in current.readers <==> Loads(newSliceNum, nodeNum, nodeId, s)
      ensures ok ==> forall s: nat :: s in current.readers ==> s in files && current.readers[s] == files[s]
    {
      var collected, slices := CollectShard(newSliceNum, files.Keys);
      if !collected {
        return false;
      }
      RangeMembers(LoadStart(newSliceNum, nodeNum, nodeId), LoadEnd(newSliceNum, nodeNum, nodeId));
      LoadRangeInside(newSliceNum, nodeNum, nodeId);
      forall i | 0 <= i < |slices|
        ensures slices[i] in files
      {
        assert slices[i] in slices;
      }
      var handler := new ModelHander(name, slices, files);
      handler.Init();
      if version == 0 {
        handler.LoadAll(|slices|);
      } else {
        handler.LoadAll(|slices| * 4 / 3);
      }
      version := version + 1;
      slicesPerNode := newSliceNum / nodeNum;
      sliceNum := newSliceNum;
      current := handler;
      tables := tables[name := handler];
      ok := true;
    }

    /** How many places refer to a handler in the table: the table, the current pointer, and the running calls. */
    function UseCount(h: ModelHander): (n: nat)
      reads this
    {
      1 + (if h == current then 1 else 0) + held[h]
    }

    /**
     The delayed cleanup, a loop over the table under the lock: exactly the handlers that no running call
     holds and the node does not serve lose their slices. Every name stays in the table.
     */
    method Cleanup()
      requires Valid()
      modifies (set m | m in tables :: tables[m])`readers
      ensures Valid()
      ensures forall m :: m in tables ==>
                tables[m].readers ==
                (if tables[m] !in held && tables[m] != current then map[] else old(tables[m].readers))
    {
      ghost var unloaded := set m | m in tables && tables[m] !in held && tables[m] != current;
      UnloadIdle(unloaded);
      assert current != null ==> current.name !in unloaded;
    }

    method UnloadIdle(ghost unloaded: set<Name>)
      requires forall m :: m in tables ==> tables[m].name == m
      requires forall m :: m in tables ==> (m in unloaded <==> tables[m] !in held && tables[m] != current)
      modifies (set m | m in tables :: tables[m])`readers
      ensures forall m :: m in tables ==>
                tables[m].readers == (if m in unloaded then map[] else old(tables[m].readers))
    {
      var left := tables.Keys;
      while left != {}
        invariant left <= tables.Keys
        invariant forall m :: m in tables ==>
                    tables[m].readers == (if m in unloaded && m !in left then map[] else old(tables[m].readers))
        decreases |left|
      {
        var m :| m in left;
        if UseCount(tables[m]) == 1 && tables[m] != current {
          tables[m].UnLoadAll();
        }
        left := left - {m};
      }
    }

    /**
     Where a request for a slice goes: the one node that can have the slice; this node exactly when the
     slice is among its readers, but for stranded slices; past the last slice, the last node. The model
     needs at least one slice per node, and the quotient has to fit an int.
     */
    method GetNodeForSlice(partition: nat) returns (node: nat)
      requires Valid() && current != null && slicesPerNode > 0 && partition / slicesPerNode < TWO_31
      ensures node < nodeNum
      ensures partition < sliceNum ==>
                forall id :: 0 <= id < nodeNum && Loads(sliceNum, nodeNum, id, partition) ==> id == node
      ensures partition < sliceNum ==>
                (partition in current.readers <==> node == nodeId && !Stranded(sliceNum, nodeNum, partition))
      ensures partition >= sliceNum ==> node == nodeNum - 1
    {
      node := partition / slicesPerNode;
      if node >= nodeNum {
        node := nodeNum - 1;
      }
      RoutedWell(sliceNum, nodeNum, nodeId, partition);
    }

    /** A client's call takes the handler the node serves now, and refers to it until it returns. */
    method GetModelHander() returns (handler: ModelHander)
      requires Valid() && current != null
      modifies this`held
      ensures Valid() && handler == current && held == old(held) + multiset{handler}
    {
      handler := current;
      held := held + multiset{handler};
    }

    /** A call for another node's task takes the handler under the name it was sent; it waits while there is none. */
    method GetModelHanderByName(name: Name) returns (handler: ModelHander)
      requires Valid() && name in tables
      modifies this`held
      ensures Valid() && handler == tables[name] && handler.name == name && held == old(held) + multiset{handler}
    {
      handler := tables[name];
      held := held + multiset{handler};
    }

    /** The call returns and its reference goes. */
    method Release(handler: ModelHander)
      requires Valid() && handler in held
      modifies this`held
      ensures Valid() && held == old(held) - multiset{handler}
    {
      held := held - multiset{handler};
    }
  }

  /**
   A call keeps its handler's slices through a switch to another model and the cleanup after it, whatever other
   calls hold. A task sent under the old name finds that handler too, unless the switch was to the same name.
   */
  method CallAcrossSwitch(node: ModelManger, next: Name, sliceNum: nat, files: map<nat, seq<Byte>>)
    returns (ok: bool, handler: ModelHander, late: ModelHander)
    requires node.Valid() && node.current != null
    modifies node, (set m | m in node.tables :: node.tables[m])`readers
    ensures node.Valid() && node.held == old(node.held) + multiset{handler} + multiset{late}
    ensures handler == old(node.current) && handler.readers == old(node.current.readers)
    ensures late.name == handler.name && (!ok || next != handler.name ==> late == handler)
    ensures ok && next == handler.name ==> late == node.current
    ensures ok <==> handler != node.current
  {
    handler := node.GetModelHander();
    ok := node.LoadNewModel(next, sliceNum, files);
    node.Cleanup();
    late := node.GetModelHanderByName(handler.name);
  }

  /**
   When a call on a handler that the node no longer serves returns, the next cleanup unloads the handler if
   it was the last call on it, and leaves it alone otherwise.
   */
  method LastCallReturns(node: ModelManger, handler: ModelHander)
    requires node.Valid() && handler in node.held && handler != node.current
    requires handler.name in node.tables && node.tables[handler.name] == handler
    modifies node`held, (set m | m in node.tables :: node.tables[m])`readers
    ensures node.Valid() && node.held == old(node.held) - multiset{handler}
    ensures handler.readers == if old(node.held[handler]) == 1 then map[] else old(handler.readers)
  {
    node.Release(handler);
    assert handler in node.held <==> old(node.held[handler]) > 1;
    node.Cleanup();
    assert node.tables[handler.name] == handler;
  }

  /** The division and clamp find the only node that can have a slice. */
  lemma RoutedWell(sliceNum: nat, nodeNum: nat, nodeId: nat, s: nat)
    requires nodeNum > 0 && PerNode(sliceNum, nodeNum) > 0 && nodeId < nodeNum
    ensures var node := NodeForSlice(PerNode(sliceNum, nodeNum), nodeNum, s);
            && (s < sliceNum ==> forall id :: 0 <= id < nodeNum && Loads(sliceNum, nodeNum, id, s) ==> id == node)
            && (s < sliceNum ==>
                  (Loads(sliceNum, nodeNum, nodeId, s) <==> node == nodeId && !Stranded(sliceNum, nodeNum, s)))
            && (s >= sliceNum ==> node == nodeNum - 1)
  {
    var k := PerNode(sliceNum, nodeNum);
    Split(sliceNum, nodeNum);
    if s < sliceNum {
      assert nodeNum <= sliceNum by {
        MulLe(1, k, nodeNum);
      }
      forall id | 0 <= id < nodeNum && Loads(sliceNum, nodeNum, id, s)
        ensures id == NodeForSlice(k, nodeNum, s)
      {
        RouteAgrees(sliceNum, nodeNum, id, s);
      }
      RouteAgrees(sliceNum, nodeNum, nodeId, s);
    } else {
      QuotientAtLeast(s, k, nodeNum);
    }
  }

  /**
   Load and route seen together: after a switch, a slice of the model sent to this node is one it has,
   unless the slice is stranded; and a slice it has is sent to no other node.
   */
  lemma RoutedIsLoaded(sliceNum: nat, nodeNum: nat, nodeId: nat, readers: map<nat, seq<Byte>>, s: nat)
    requires 1 <= nodeNum <= sliceNum && nodeId < nodeNum && s < sliceNum
    requires forall p: nat :: p in readers <==> Loads(sliceNum, nodeNum, nodeId, p)
    ensures PerNode(sliceNum, nodeNum) > 0
    ensures s in readers <==>
            NodeForSlice(PerNode(sliceNum, nodeNum), nodeNum, s) == nodeId && !Stranded(sliceNum, nodeNum, s)
  {
    RouteAgrees(sliceNum, nodeNum, nodeId, s);
  }
}
