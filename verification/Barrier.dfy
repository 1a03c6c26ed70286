/**
 The version switch across nodes: every node loads its shard of the next model, registers a key under
 its version in etcd, waits until as many keys are listed as there are nodes, then moves on.
 */
module Barrier {
  import opened Requests
  import opened Text

  const VERSION_DIR := "/services/version/"

  /** The directory listed for version `v`, slash included. */
  function Dir(v: nat): (dir: string)
  {
    VERSION_DIR + (Dec(v) + "/")
  }

  /** The key node `i` sets for version `v`. */
  function KeyText(v: nat, i: nat): (key: string)
  {
    VERSION_DIR + (Dec(v) + "/" + Dec(i))
  }

  // ----- the key text

  lemma AllDigitsNoSlash(s: string)
    requires AllDigits(s)
    ensures '/' !in s
  {
  }

  /** The slash after the number keeps version 1 and version 10 apart. */
  lemma SlashSeparates(a: string, b: string, rest: string)
    requires AllDigits(a) && AllDigits(b) && a + "/" <= b + "/" + rest
    ensures a == b
  {
    var s, t := a + "/", b + "/" + rest;
    AllDigitsNoSlash(a);
    AllDigitsNoSlash(b);
    assert t == a + "/" + t[|s|..];
    FindAfter(a, '/', t[|s|..]);
    FindAfter(b, '/', rest);
    assert a == t[..|a|] && b == t[..|b|];
  }

  lemma SamePrefix(p: string, a: string, b: string)
    ensures p + a <= p + b <==> a <= b
  {
    if p + a <= p + b {
      assert a == (p + a)[|p|..] && b == (p + b)[|p|..];
      assert p + a == (p + b)[..|p| + |a|];
    }
  }

  /** The directory of version `v` is a prefix of a key of version `w` only if they are the same version. */
  lemma DirMatches(v: nat, w: nat, i: nat)
    ensures Dir(v) <= KeyText(w, i) <==> v == w
  {
    SamePrefix(VERSION_DIR, Dec(v) + "/", Dec(w) + "/" + Dec(i));
    if Dec(v) + "/" <= Dec(w) + "/" + Dec(i) {
      SlashSeparates(Dec(v), Dec(w), Dec(i));
      DecInjective(v, w);
    }
  }

  /** Different nodes and versions have different keys, so a set of keys may be told by version and node. */
  lemma KeysDiffer(v: nat, i: nat, w: nat, j: nat)
    requires KeyText(v, i) == KeyText(w, j)
    ensures v == w && i == j
  {
    assert Dir(v) <= KeyText(v, i) by {
      DirMatches(v, v, i);
    }
    DirMatches(v, w, j);
    SamePrefix(VERSION_DIR, Dec(v) + "/" + Dec(i), Dec(v) + "/" + Dec(j));
    SamePrefix(VERSION_DIR, Dec(v) + "/" + Dec(j), Dec(v) + "/" + Dec(i));
    SamePrefix(Dec(v) + "/", Dec(i), Dec(j));
    SamePrefix(Dec(v) + "/", Dec(j), Dec(i));
    DecInjective(i, j);
  }

  /** A stored key, told by its version and node. */
  datatype Key = Key(version: nat, node: nat)

  /** `ls` of version `v`'s directory returns this key. */
  predicate Listed(v: nat, k: Key)
  {
    Dir(v) <= KeyText(k.version, k.node)
  }

  function Listing(etcd: set<Key>, v: nat): (keys: set<Key>)
  {
    set k | k in etcd && Listed(v, k)
  }

  lemma ListingIs(etcd: set<Key>, v: nat)
    ensures forall k :: k in Listing(etcd, v) <==> k in etcd && k.version == v
  {
    forall k: Key
      ensures Listed(v, k) <==> k.version == v
    {
      DirMatches(v, k.version, k.node);
    }
  }

  // ----- the state machine

  /** `Loaded` is the loop that sets the key, `Registered` the loop that lists, `Passed` the lines after it. */
  datatype Pc = Idle | Loaded | Registered | Passed

  /** `models[w]` is the model this node loaded for its switch number `w`. */
  datatype Node = Node(version: nat, pc: Pc, models: seq<Name>)

  datatype State = State(nodes: seq<Node>, etcd: set<Key>)

  datatype Step =
    | Load(i: nat, m: Name)     // the whole shard is loaded and the workers started
    | SetLost(i: nat)           // the key is set but the answer does not arrive: the loop goes round
    | SetOk(i: nat)             // the key is set and the answer says so
    | ListOk(i: nat)            // as many keys as nodes: leave the loop, count the version up
    | Publish(i: nat)           // the handler goes into the table

  predicate Enabled(s: State, step: Step)
  {
    step.i < |s.nodes| &&
    match step
    case Load(i, m) => s.nodes[i].pc == Idle
    case SetLost(i) => s.nodes[i].pc == Loaded
    case SetOk(i) => s.nodes[i].pc == Loaded
    case ListOk(i) => s.nodes[i].pc == Registered && |Listing(s.etcd, s.nodes[i].version)| == |s.nodes|
    case Publish(i) => s.nodes[i].pc == Passed
  }

  function Apply(s: State, step: Step): (s': State)
    requires Enabled(s, step)
  {
    var n := s.nodes[step.i];
    match step
    case Load(i, m) => s.(nodes := s.nodes[i := n.(pc := Loaded, models := n.models + [m])])
    case SetLost(i) => s.(etcd := s.etcd + {Key(n.version, i)})
    case SetOk(i) => s.(etcd := s.etcd + {Key(n.version, i)}, nodes := s.nodes[i := n.(pc := Registered)])
    case ListOk(i) => s.(nodes := s.nodes[i := n.(version := n.version + 1, pc := Passed)])
    case Publish(i) => s.(nodes := s.nodes[i := n.(pc := Idle)])
  }

  function Initial(n: nat): State
  {
    State(seq(n, i => Node(0, Idle, [])), {})
  }

  predicate Legal(n: nat, steps: seq<Step>)
    decreases |steps|, 0
  {
    steps == [] ||
    var k := |steps| - 1;
    Legal(n, steps[..k]) && Enabled(Final(n, steps[..k]), steps[k])
  }

  function Final(n: nat, steps: seq<Step>): (s: State)
    requires Legal(n, steps)
    decreases |steps|, 1
  {
    if steps == [] then Initial(n)
    else
      var k := |steps| - 1;
      Apply(Final(n, steps[..k]), steps[k])
  }

  /** Models whose handler is in the node's table: one for each switch it has finished. */
  function Published(n: Node): (k: int)
  {
    if n.pc == Passed then n.version - 1 else n.version
  }

  // ----- the invariant

  ghost predicate NodeOk(n: Node)
  {
    && |n.models| == n.version + (if n.pc == Loaded || n.pc == Registered then 1 else 0)
    && (n.pc == Passed ==> n.version > 0)
  }

  /** A key in the store belongs to a node that has loaded its model for that version. */
  ghost predicate KeyOk(s: State, k: Key)
  {
    k.node < |s.nodes| && k.version < |s.nodes[k.node].models|
  }

  ghost predicate Inv(s: State)
  {
    && (forall i :: 0 <= i < |s.nodes| ==> NodeOk(s.nodes[i]))
    && (forall k :: k in s.etcd ==> KeyOk(s, k))
    && (forall i :: 0 <= i < |s.nodes| && s.nodes[i].pc == Registered ==> Key(s.nodes[i].version, i) in s.etcd)
    && (forall w: nat, i: nat, j :: i < |s.nodes| && 0 <= j < |s.nodes| && w < s.nodes[j].version ==>
          Key(w, i) in s.etcd)
  }

  /** The keys that can be listed for version `v`. */
  function AllKeys(n: nat, v: nat): (keys: set<Key>)
    ensures forall k :: k in keys <==> k.version == v && k.node < n
    ensures |keys| == n
  {
    if n == 0 then {} else AllKeys(n - 1, v) + {Key(v, n - 1)}
  }

  lemma SubsetSize<T>(a: set<T>, b: set<T>)
    requires a <= b
    ensures |a| <= |b| && (|a| == |b| ==> a == b)
  {
    assert b == a + (b - a);
    assert |b| == |a| + |b - a|;
  }

  /**
   The listing never has more keys than nodes, however often `set` was repeated, and the guard of the
   barrier is true exactly when every node has registered for that version.
   */
  lemma GuardMeansAll(s: State, v: nat)
    requires forall k :: k in s.etcd ==> KeyOk(s, k)
    ensures |Listing(s.etcd, v)| <= |s.nodes|
    ensures |Listing(s.etcd, v)| == |s.nodes| <==> forall i: nat :: i < |s.nodes| ==> Key(v, i) in s.etcd
  {
    var all := AllKeys(|s.nodes|, v);
    ListingIs(s.etcd, v);
    SubsetSize(Listing(s.etcd, v), all);
    if forall i: nat :: i < |s.nodes| ==> Key(v, i) in s.etcd {
      forall k | k in all
        ensures k in Listing(s.etcd, v)
      {
        assert k == Key(v, k.node);
      }
      assert all == Listing(s.etcd, v);
    } else {
      var i: nat :| i < |s.nodes| && Key(v, i) !in s.etcd;
      assert Key(v, i) in all && Key(v, i) !in Listing(s.etcd, v);
    }
  }

  // ----- every step keeps it

  lemma StepInv(s: State, step: Step)
    requires Inv(s) && Enabled(s, step)
    ensures Inv(Apply(s, step))
  {
    if step.ListOk? {
      ListOkInv(s, step.i);
    } else if step.SetLost? || step.SetOk? {
      SetInv(s, step);
    } else {
      OwnInv(s, step);
    }
  }

  lemma ListOkInv(s: State, i: nat)
    requires Inv(s) && Enabled(s, ListOk(i))
    ensures Inv(Apply(s, ListOk(i)))
  {
    GuardMeansAll(s, s.nodes[i].version);
  }

  lemma SetInv(s: State, step: Step)
    requires Inv(s) && Enabled(s, step) && (step.SetLost? || step.SetOk?)
    ensures Inv(Apply(s, step))
  {
  }

  /** Loading and publishing touch no key. */
  lemma OwnInv(s: State, step: Step)
    requires Inv(s) && Enabled(s, step) && (step.Load? || step.Publish?)
    ensures Inv(Apply(s, step))
  {
  }

  lemma {:induction false} RunsInv(n: nat, steps: seq<Step>)
    requires Legal(n, steps)
    ensures Inv(Final(n, steps)) && |Final(n, steps).nodes| == n
  {
    if steps != [] {
      var k := |steps| - 1;
      RunsInv(n, steps[..k]);
      StepInv(Final(n, steps[..k]), steps[k]);
    }
  }

  // ----- the results

  /**
   Safety: in every reachable state the versions of two nodes differ by at most one, and a node past
   version v means every node has loaded its model for version v and registered it.
   */
  lemma BarrierSafe(n: nat, steps: seq<Step>, i: nat, j: nat)
    requires Legal(n, steps) && i < n && j < n
    ensures var s := Final(n, steps);
            && |s.nodes| == n
            && s.nodes[j].version <= s.nodes[i].version + 1
            && forall v: nat :: v < s.nodes[j].version ==> v < |s.nodes[i].models| && Key(v, i) in s.etcd
  {
    RunsInv(n, steps);
    var s := Final(n, steps);
    assert NodeOk(s.nodes[i]);
    forall v: nat | v < s.nodes[j].version
      ensures v < |s.nodes[i].models| && Key(v, i) in s.etcd
    {
      assert KeyOk(s, Key(v, i));
    }
    if 0 < s.nodes[j].version {
      assert KeyOk(s, Key(s.nodes[j].version - 1, i));
    }
  }

  /** Every node takes the model planned for each switch. */
  ghost predicate Agreed(s: State, step: Step, plan: nat -> Name)
  {
    step.Load? && step.i < |s.nodes| ==> step.m == plan(s.nodes[step.i].version)
  }

  ghost predicate AgreedRun(n: nat, steps: seq<Step>, plan: nat -> Name)
    requires Legal(n, steps)
    decreases |steps|
  {
    steps == [] ||
    var k := |steps| - 1;
    AgreedRun(n, steps[..k], plan) && Agreed(Final(n, steps[..k]), steps[k], plan)
  }

  lemma {:induction false} PlanFollowed(n: nat, steps: seq<Step>, plan: nat -> Name)
    requires Legal(n, steps) && AgreedRun(n, steps, plan)
    ensures var s := Final(n, steps);
            forall i, w :: 0 <= i < |s.nodes| && 0 <= w < |s.nodes[i].models| ==> s.nodes[i].models[w] == plan(w)
  {
    if steps != [] {
      var k := |steps| - 1;
      PlanFollowed(n, steps[..k], plan);
      RunsInv(n, steps[..k]);
      var s := Final(n, steps[..k]);
      if steps[k].Load? {
        assert NodeOk(s.nodes[steps[k].i]);
      }
    }
  }

  /** The switch the code can still make on its own: set the key again, leave the open barrier, or publish. */
  ghost predicate CanMoveOn(s: State, i: nat, v: nat)
    requires i < |s.nodes|
  {
    var n := s.nodes[i];
    || (n.pc == Loaded && n.version == v && Enabled(s, SetOk(i)))
    || (n.pc == Registered && n.version == v && Enabled(s, ListOk(i)))
    || (n.pc == Passed && n.version == v + 1 && Enabled(s, Publish(i)))
  }

  lemma OpenState(s: State, v: nat, i: nat, j: nat)
    requires Inv(s) && i < |s.nodes| && j < |s.nodes| && v < Published(s.nodes[j])
    ensures v < |s.nodes[i].models| && |Listing(s.etcd, v)| == |s.nodes|
    ensures v < Published(s.nodes[i]) || CanMoveOn(s, i, v)
  {
    GuardMeansAll(s, v);
    assert KeyOk(s, Key(v, i));
    assert NodeOk(s.nodes[i]) && NodeOk(s.nodes[j]);
  }

  /**
   The barrier opens for all: once one node serves the model of switch v, every node either has that
   model in its table, or has it loaded, finds the guard of the barrier true, and can move on.
   */
  lemma BarrierOpensForAll(n: nat, steps: seq<Step>, plan: nat -> Name, v: nat, i: nat, j: nat)
    requires Legal(n, steps) && AgreedRun(n, steps, plan) && i < n && j < n
    requires |Final(n, steps).nodes| == n && v < Published(Final(n, steps).nodes[j])
    ensures var s := Final(n, steps);
            && v < |s.nodes[i].models| && s.nodes[i].models[v] == plan(v)
            && |Listing(s.etcd, v)| == n
            && (v < Published(s.nodes[i]) || CanMoveOn(s, i, v))
  {
    RunsInv(n, steps);
    PlanFollowed(n, steps, plan);
    OpenState(Final(n, steps), v, i, j);
  }
}
