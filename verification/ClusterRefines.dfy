/**
 Exactly when `Get` refines a plain loop of reads: with models of equal slice count, when no non-empty
 slice is stranded.
 */
module ClusterRefines {
  import opened Requests
  import opened Sharding
  import opened Cluster
  import opened ClusterSafety
  import opened ClusterRoutes
  import opened ClusterReads
  import opened ClusterTheorems
  import opened ClusterExposure
  import opened ClusterSwitches

  /** A client of a calm run whose requests are all inside their slices gets the plain loop's answer, or none. */
  ghost predicate Refines(cfg: Config)
  {
    forall steps, g: nat :: Asked(cfg, steps, g) ==>
      var x := Final(cfg, steps).gets[g];
      x.phase.data == SequentialReads(cfg.files[x.name], x.reqs)
  }

  /** After a calm run, client `g` has status 0 for requests inside their slices. */
  ghost predicate Asked(cfg: Config, steps: seq<Step>, g: nat)
  {
    && Legal(cfg, steps) && Succeeded(Final(cfg, steps), g) && CalmRun(cfg, steps, Final(cfg, steps).gets[g].node)
    && var x := Final(cfg, steps).gets[g];
       x.name in cfg.files && forall i :: 0 <= i < |x.reqs| ==> InFile(cfg.files[x.name], x.reqs[i])
  }

  /** A slice that is not empty, and that no node loads. */
  predicate Missing(cfg: Config, slices: nat, m: Name, p: nat)
    requires cfg.nodes > 0
  {
    m in cfg.files && p < |cfg.files[m]| && cfg.files[m][p] != [] && Stranded(slices, cfg.nodes, p) && p < TWO_31
  }

  /** Once every node serves `m`, each of them sends requests for a stranded slice to the last one. */
  lemma StrandedMisrouted(cfg: Config, s: State, slices: nat, m: Name, p: nat) returns (req: SliceRequest)
    requires SameSliceCount(cfg, slices) && Installed(cfg, s, m, cfg.nodes) && Missing(cfg, slices, m, p)
    ensures req == SliceRequest(p, 0, 1) && NodeMisrouted(cfg, s, 0, cfg.nodes - 1, m, req)
  {
    StrandedSlices(slices, cfg.nodes, p);
    assert ServesRouted(cfg, s, 0, m) && ServesRouted(cfg, s, cfg.nodes - 1, m);
    NoCallsNotDrained(cfg, s, 0);
    req := SliceAsks(cfg, s, 0, cfg.nodes - 1, m, p);
  }

  /** With a non-empty stranded slice, a client that asks for its first byte can get another one. */
  lemma StrandedGoesWrong(cfg: Config, slices: nat, m: Name, p: nat) returns (steps: seq<Step>, g: nat)
    requires SameSliceCount(cfg, slices) && Missing(cfg, slices, m, p)
    ensures Legal(cfg, steps) && Succeeded(Final(cfg, steps), g) && CalmRun(cfg, steps, Final(cfg, steps).gets[g].node)
    ensures var x := Final(cfg, steps).gets[g];
            x.name == m && x.reqs == [SliceRequest(p, 0, 1)] && |x.phase.data| > 0 &&
            x.phase.data[0] != PlainRead(cfg.files[m], x.reqs[0])
  {
    var steps0, s := InstallEverywhere(cfg, m);
    var req := StrandedMisrouted(cfg, s, slices, m, p);
    NoCallsNotDrained(cfg, s, 0);
    var more;
    more, g := LostNodeGoesWrong(cfg, steps0, 0, cfg.nodes - 1, m, req);
    AllLoadedSheltered(cfg, s);
    QuietStaysCalm(cfg, steps0, more, 0);
    steps := steps0 + more;
  }

  lemma WrongRefutes(cfg: Config, slices: nat, m: Name, p: nat)
    requires SameSliceCount(cfg, slices) && Missing(cfg, slices, m, p)
    ensures !Refines(cfg)
  {
    var steps, g := StrandedGoesWrong(cfg, slices, m, p);
    var x := Final(cfg, steps).gets[g];
    assert Asked(cfg, steps, g);
    SequentialAt(cfg.files[m], x.reqs);
  }

  lemma NoneMissingRefines(cfg: Config, slices: nat)
    requires IntSized(cfg) && SameSliceCount(cfg, slices)
    requires forall m, p: nat :: !Missing(cfg, slices, m, p)
    ensures Refines(cfg)
  {
    forall steps, g: nat | Asked(cfg, steps, g)
      ensures var x := Final(cfg, steps).gets[g]; x.phase.data == SequentialReads(cfg.files[x.name], x.reqs)
    {
      AskedRefines(cfg, steps, slices, g);
    }
  }

  lemma AskedRefines(cfg: Config, steps: seq<Step>, slices: nat, g: nat)
    requires IntSized(cfg) && SameSliceCount(cfg, slices) && Asked(cfg, steps, g)
    requires forall m, p: nat :: !Missing(cfg, slices, m, p)
    ensures var x := Final(cfg, steps).gets[g]; x.phase.data == SequentialReads(cfg.files[x.name], x.reqs)
  {
    var x := Final(cfg, steps).gets[g];
    AnswersUnlessStranded(cfg, steps, slices, g);
    AnswersAreFileBytes(cfg, steps, g);
    SequentialAt(cfg.files[x.name], x.reqs);
    RunsAreSafe(cfg, steps);
    assert Admissible(x.reqs) by {
      assert GetOk(cfg, x);
    }
    forall i | 0 <= i < |x.reqs|
      ensures x.phase.data[i] == PlainRead(cfg.files[x.name], x.reqs[i])
    {
      assert !Missing(cfg, slices, x.name, x.reqs[i].partition);
    }
  }

  /**
   With models of equal slice count: `Get` refines the plain loop in all calm runs if and only if every
   stranded slice is empty.
   */
  lemma GetRefinesExactly(cfg: Config, slices: nat)
    requires IntSized(cfg) && SameSliceCount(cfg, slices)
    ensures Refines(cfg) <==> forall m, p: nat :: !Missing(cfg, slices, m, p)
  {
    if m, p: nat :| Missing(cfg, slices, m, p) {
      WrongRefutes(cfg, slices, m, p);
    } else {
      NoneMissingRefines(cfg, slices);
    }
  }

  /**
   With at least one model and no empty slice, and slice numbers that fit an `int`: if and only if the
   remainder of slices by nodes is below the quotient.
   */
  lemma RemainderDecides(cfg: Config, slices: nat, m: Name)
    requires IntSized(cfg) && SameSliceCount(cfg, slices) && slices <= TWO_31 && m in cfg.files
    requires forall a, p :: a in cfg.files && 0 <= p < slices ==> cfg.files[a][p] != []
    ensures Refines(cfg) <==> slices % cfg.nodes < slices / cfg.nodes
  {
    GetRefinesExactly(cfg, slices);
    Split(slices, cfg.nodes);
    if slices % cfg.nodes >= slices / cfg.nodes {
      assert Missing(cfg, slices, m, cfg.nodes * PerNode(slices, cfg.nodes));
    }
  }
}
