/** Placement as the code runs it (`select` in crates/kernel/src/select.rs): the greedy
    pass, the spread and machine-local paths and the bounded fallback. Whatever it returns
    is a solution, and the authority kernel accepts it. */
module Select {
  import opened Forest
  import opened ResourceGraph
  import opened Occupancy
  import opened Kernel
  import opened Authority
  import opened Placement
  import opened Search
  import opened ClusterObject

  predicate OnMachine(g: Graph, group: seq<Claim>, m: NodeId) {
    forall i :: 0 <= i < |group| ==> MachineOf(g, group[i].node) == Some(m)
  }

  ghost predicate OneMachine(g: Graph, group: seq<Claim>) {
    exists m :: OnMachine(g, group, m)
  }

  /** What the greedy pass promises of the group it picks for a need. */
  ghost predicate Picked(s: Scene, allowed: set<NodeId>, r: Request, need: Need, group: seq<Claim>) {
    && GroupMeets(s, allowed, need, group)
    && (r.machineLocal && !Consumable(need) ==> OneMachine(s.graph, group))
  }

  ghost predicate GoodSoFar(s: Scene, allowed: set<NodeId>, need: Need, group: seq<Claim>) {
    forall i :: 0 <= i < |group| ==> GoodClaim(s, allowed, need, group[i])
  }

  /** A consumable need takes the first ranked node that covers it and fits the topology. */
  method TakeOne(s: Scene, allowed: set<NodeId>, r: Request, need: Need, already: Groups, ranked: seq<NodeId>)
    returns (group: Option<seq<Claim>>)
    requires Consumable(need) && Ranked(s, allowed, need, ranked)
    ensures group.Some? ==> Picked(s, allowed, r, need, group.value)
  {
    hide GoodClaim, Ranked;
    for i := 0 to |ranked| {
      var claim := Claim(ranked[i], Unit(need));
      if CanCover(s.graph, s.used, claim) {
        var holds := CheckTopology(s.graph, r.topology, already + [[claim]]);
        if holds {
          RankedIsGood(s, allowed, need, ranked, i);
          return Some([claim]);
        }
      }
    }
    return None;
  }

  /** Takes nodes of `nodes` in order while the topology allows, up to `count`. */
  method TakeMany(s: Scene, allowed: set<NodeId>, r: Request, need: Need, already: Groups, nodes: seq<NodeId>,
      count: nat)
    returns (chosen: seq<Claim>)
    requires forall i :: 0 <= i < |nodes| ==> GoodClaim(s, allowed, need, Claim(nodes[i], Unit(need)))
    ensures |chosen| <= count && GoodSoFar(s, allowed, need, chosen)
    ensures forall i :: 0 <= i < |chosen| ==> chosen[i].node in nodes
  {
    hide GoodClaim;
    chosen := [];
    for i := 0 to |nodes|
      invariant |chosen| <= count && GoodSoFar(s, allowed, need, chosen)
      invariant forall j :: 0 <= j < |chosen| ==> chosen[j].node in nodes
    {
      if |chosen| >= count {
        break;
      }
      var claim := Claim(nodes[i], Unit(need));
      var holds := CheckTopology(s.graph, r.topology, already + [chosen + [claim]]);
      if holds {
        chosen := chosen + [claim];
      }
    }
  }

  /** The ranked nodes by machine, machines in the order of their best node. */
  method ByMachine(g: Graph, ranked: seq<NodeId>) returns (machines: seq<NodeId>, nodes: map<NodeId, seq<NodeId>>)
    ensures forall m :: m in machines ==> m in nodes
    ensures forall m, i :: m in nodes && 0 <= i < |nodes[m]| ==>
              nodes[m][i] in ranked && MachineOf(g, nodes[m][i]) == Some(m)
  {
    hide MachineOf;
    machines, nodes := [], map[];
    for k := 0 to |ranked|
      invariant forall m :: m in machines ==> m in nodes
      invariant forall m, i :: m in nodes && 0 <= i < |nodes[m]| ==>
                  nodes[m][i] in ranked && MachineOf(g, nodes[m][i]) == Some(m)
    {
      var machine := MachineOf(g, ranked[k]);
      if machine.Some? {
        var m := machine.value;
        if m !in nodes {
          machines := machines + [m];
        }
        nodes := nodes[m := (if m in nodes then nodes[m] else []) + [ranked[k]]];
      }
    }
  }

  /** A need's claims share one machine unless the request says otherwise. */
  method TakeLocal(s: Scene, allowed: set<NodeId>, r: Request, need: Need, already: Groups, ranked: seq<NodeId>)
    returns (group: Option<seq<Claim>>)
    requires !Consumable(need) && Ranked(s, allowed, need, ranked)
    ensures group.Some? ==> Picked(s, allowed, r, need, group.value)
  {
    var count := GroupSize(need);
    forall n | n in ranked
      ensures GoodClaim(s, allowed, need, Claim(n, Unit(need)))
    {
      var p :| 0 <= p < |ranked| && ranked[p] == n;
      RankedIsGood(s, allowed, need, ranked, p);
    }
    hide GoodClaim, Ranked, MachineOf;
    var machines, nodes := ByMachine(s.graph, ranked);
    for k := 0 to |machines| {
      assert machines[k] in machines;
      var chosen := TakeMany(s, allowed, r, need, already, nodes[machines[k]], count);
      if |chosen| == count {
        assert OnMachine(s.graph, chosen, machines[k]);
        return Some(chosen);
      }
    }
    return None;
  }

  method SelectNeed(s: Scene, allowed: set<NodeId>, r: Request, need: Need, already: Groups)
      returns (group: Option<seq<Claim>>)
    requires WellFormed(s.graph)
    ensures group.Some? ==> Picked(s, allowed, r, need, group.value)
  {
    var ranked := RankAllowed(s, need, allowed);
    hide WellFormed;
    if ranked == [] {
      return None;
    }
    if Consumable(need) {
      if forall d :: d in Unit(need) ==> Unit(need)[d] == 0 {
        return None;
      }
      group := TakeOne(s, allowed, r, need, already, ranked);
    } else if !r.machineLocal {
      forall i | 0 <= i < |ranked|
        ensures GoodClaim(s, allowed, need, Claim(ranked[i], Unit(need)))
      {
        RankedIsGood(s, allowed, need, ranked, i);
      }
      hide GoodClaim, Ranked;
      var chosen := TakeMany(s, allowed, r, need, already, ranked, GroupSize(need));
      group := if |chosen| == GroupSize(need) then Some(chosen) else None;
    } else {
      group := TakeLocal(s, allowed, r, need, already, ranked);
    }
  }

  /** The greedy pass over all needs. */
  method Greedy(s: Scene, allowed: set<NodeId>, r: Request) returns (result: Option<Groups>)
    requires WellFormed(s.graph)
    ensures result.Some? ==> Solution(s, allowed, r, result.value)
    ensures result.Some? && r.machineLocal ==>
              forall i :: 0 <= i < |r.needs| && !Consumable(r.needs[i]) ==> OneMachine(s.graph, result.value[i])
  {
    hide WellFormed, GroupMeets, OneMachine, TopologyHolds;
    var picked: Groups := [];
    for i := 0 to |r.needs|
      invariant |picked| == i
      invariant forall j :: 0 <= j < i ==> Picked(s, allowed, r, r.needs[j], picked[j])
    {
      var group := SelectNeed(s, allowed, r, r.needs[i], picked);
      if group.None? {
        return None;
      }
      picked := picked + [group.value];
    }
    var holds := CheckTopology(s.graph, r.topology, picked);
    return if holds then Some(picked) else None;
  }

  function Subtree(g: Graph, machine: NodeId): set<NodeId> {
    set n | n in g.nodes && InScope(g, n, machine)
  }

  /** Whole-machine placement: the first machine whose subtree serves every need, greedily
      or, when there are topology constraints, by the bounded search. */
  method OneMachineSelect(s: Scene, r: Request) returns (result: Option<(NodeId, Groups)>)
    requires WellFormed(s.graph)
    ensures result.Some? ==>
              IsClass(s.graph, result.value.0, MACHINE)
                && Solution(s, Subtree(s.graph, result.value.0), r, result.value.1)
  {
    var machines := ClassMembers(s.graph, MACHINE);
    assert forall m :: m in machines ==> IsClass(s.graph, m, MACHINE);
    hide Solution;
    for k := 0 to |machines| {
      var m := machines[k];
      assert m in machines;
      if Barred(s.graph, s.blocked, m) {
        continue;
      }
      var allowed := Subtree(s.graph, m);
      var picked := Greedy(s, allowed, r);
      if picked.Some? {
        return Some((m, picked.value));
      }
      if r.topology != [] {
        var left;
        picked, left := SearchMachine(s, allowed, r, FALLBACK_SEARCH_BUDGET);
        if picked.Some? {
          return Some((m, picked.value));
        }
      }
    }
    return None;
  }

  ghost predicate Localized(s: Scene, r: Request, picked: Groups) {
    if |r.needs| > 1 then exists m :: IsClass(s.graph, m, MACHINE) && Solution(s, Subtree(s.graph, m), r, picked)
    else forall i :: 0 <= i < |picked| && i < |r.needs| && !Consumable(r.needs[i]) ==> OneMachine(s.graph, picked[i])
  }

  /** What `select` returns is a solution; a machine-local request lands on one machine. */
  method SelectPlacement(s: Scene, r: Request) returns (result: Option<Groups>)
    requires WellFormed(s.graph)
    ensures result.Some? ==> Solution(s, s.graph.nodes.Keys, r, result.value)
    ensures result.Some? && r.machineLocal ==> Localized(s, r, result.value)
  {
    if exists t :: 0 <= t < |r.topology| && (r.topology[t].left >= |r.needs| || r.topology[t].right >= |r.needs|) {
      return None;
    }
    hide WellFormed, Solution;
    if r.machineLocal && |r.needs| > 1 {
      var anchored := OneMachineSelect(s, r);
      if anchored.None? {
        return None;
      }
      WiderSolution(s, Subtree(s.graph, anchored.value.0), r, anchored.value.1);
      return Some(anchored.value.1);
    }
    result := Greedy(s, s.graph.nodes.Keys, r);
    if result.Some? {
      SolutionSize(s, r, result.value);
    }
  }

  lemma SolutionSize(s: Scene, r: Request, picked: Groups)
    requires Solution(s, s.graph.nodes.Keys, r, picked)
    ensures |picked| == |r.needs|
  {
  }

  lemma WiderSolution(s: Scene, allowed: set<NodeId>, r: Request, picked: Groups)
    requires Solution(s, allowed, r, picked) && allowed <= s.graph.nodes.Keys
    ensures Solution(s, s.graph.nodes.Keys, r, picked)
  {
  }

  /* ---------- the scheduler and the authority agree ---------- */

  function Flatten(picked: Groups): seq<Claim> {
    if picked == [] then [] else Flatten(picked[..|picked| - 1]) + picked[|picked| - 1]
  }

  /** The nodes placement must avoid: known and not schedulable. */
  function PlacementBlocked(k: Kernel): set<NodeId> {
    set n | n in k.graph.nodes && NodeStateOf(k, n) != Schedulable
  }

  ghost function SceneOf(k: Kernel): Scene {
    Scene(k.graph, OccupancyExcept(k, {}), PlacementBlocked(k))
  }

  lemma {:induction false} FlattenHolds(picked: Groups, c: Claim)
    ensures c in Flatten(picked) <==> exists g :: 0 <= g < |picked| && c in picked[g]
  {
    if picked != [] {
      var rest, last := picked[..|picked| - 1], picked[|picked| - 1];
      FlattenHolds(rest, c);
      if c in Flatten(rest) {
        var g :| 0 <= g < |rest| && c in rest[g];
        assert c in picked[g];
      }
      if exists g :: 0 <= g < |picked| && c in picked[g] {
        var g :| 0 <= g < |picked| && c in picked[g];
        assert g < |rest| ==> c in rest[g];
      }
    }
  }

  lemma {:induction false} FlattenUnique(picked: Groups)
    requires ClaimsUnique(picked)
    ensures UniqueNodes(Flatten(picked))
  {
    if picked != [] {
      var rest, last := picked[..|picked| - 1], picked[|picked| - 1];
      assert ClaimsUnique(rest) by {
        forall g, h | 0 <= g < h < |rest| ensures Apart(rest[g], rest[h]) { assert Apart(picked[g], picked[h]); }
      }
      FlattenUnique(rest);
      var all := Flatten(rest);
      forall i, j | 0 <= i < |all| && 0 <= j < |last|
        ensures all[i].node != last[j].node
      {
        FlattenHolds(rest, all[i]);
        var g :| 0 <= g < |rest| && all[i] in rest[g];
        var x :| 0 <= x < |rest[g]| && rest[g][x] == all[i];
        assert Apart(picked[g], picked[|picked| - 1]);
      }
      JoinUnique(all, last);
    }
  }

  lemma JoinUnique(a: seq<Claim>, b: seq<Claim>)
    requires UniqueNodes(a) && UniqueNodes(b) && Apart(a, b)
    ensures UniqueNodes(a + b)
  {
  }

  /** A claim of a solution passes every check the kernel makes of a claim. */
  ghost predicate Admitted(k: Kernel, c: Claim) {
    && Resolvable(k.graph, c) && c.quantity != map[] && !NodeQuarantined(k, c.node)
    && CanCover(k.graph, OccupancyExcept(k, {}), c)
  }

  lemma BarredMeansQuarantined(k: Kernel, n: NodeId)
    requires WellFormed(k.graph) && n in k.graph.nodes && NodeQuarantined(k, n)
    ensures Barred(k.graph, PlacementBlocked(k), n)
  {
    if !Blocked(k.nodeStates, n) {
      var a :| a in Ancestors(k.graph.parent, n) && Blocked(k.nodeStates, a);
      AncestorKnown(k.graph, n, a);
    }
  }

  lemma {:induction false} AncestorKnown(g: Graph, n: NodeId, a: NodeId)
    requires WellFormed(g) && a in Ancestors(g.parent, n)
    ensures a in g.nodes
    decreases RankAt(RankOf(g.parent), n)
  {
    var p := g.parent[n];
    if a == p {
      assert ContainsEdge(g.edges, p, n);
    } else {
      AncestorKnown(g, p, a);
    }
  }

  /** Every solution fits beside what is already in use. */
  lemma SolutionCovers(s: Scene, allowed: set<NodeId>, r: Request, picked: Groups)
    requires Solution(s, allowed, r, picked)
    ensures CoversAll(s.graph, s.used, Flatten(picked))
  {
    forall i | 0 <= i < |Flatten(picked)|
      ensures CanCover(s.graph, s.used, Flatten(picked)[i])
    {
      var c := Flatten(picked)[i];
      FlattenHolds(picked, c);
      var g :| 0 <= g < |picked| && c in picked[g];
      assert GroupMeets(s, allowed, r.needs[g], picked[g]);
      var j :| 0 <= j < |picked[g]| && picked[g][j] == c;
      assert GoodClaim(s, allowed, r.needs[g], picked[g][j]);
    }
  }

  lemma GoodIsAdmitted(k: Kernel, need: Need, c: Claim)
    requires WellFormed(k.graph) && GoodClaim(SceneOf(k), k.graph.nodes.Keys, need, c)
    ensures Admitted(k, c)
  {
    ContractNeedsDemand(k.graph, c.node, Unit(need));
    if NodeQuarantined(k, c.node) {
      BarredMeansQuarantined(k, c.node);
    }
    hide WellFormed, Barred, NodeQuarantined, ContractFor;
  }

  lemma SolutionAdmitted(k: Kernel, r: Request, picked: Groups, c: Claim)
    requires WellFormed(k.graph) && Solution(SceneOf(k), k.graph.nodes.Keys, r, picked) && c in Flatten(picked)
    ensures Admitted(k, c)
  {
    FlattenHolds(picked, c);
    var g :| 0 <= g < |picked| && c in picked[g];
    assert GroupMeets(SceneOf(k), k.graph.nodes.Keys, r.needs[g], picked[g]);
    var i :| 0 <= i < |picked[g]| && picked[g][i] == c;
    assert GoodClaim(SceneOf(k), k.graph.nodes.Keys, r.needs[g], picked[g][i]);
    hide WellFormed, Candidate, NodeQuarantined;
    GoodIsAdmitted(k, r.needs[g], c);
  }

  /** Opening a root lease with a fresh id on the claims of any solution is accepted in the
      state the solution was found in, and the lease holds exactly those claims. */
  lemma SolutionOpens(k: Kernel, r: Request, picked: Groups, c: Command)
    requires Inv(k) && k.agreed && Solution(SceneOf(k), k.graph.nodes.Keys, r, picked)
    requires RootOpening(k, c, Flatten(picked))
    ensures Open(k, c).Accepted? && Open(k, c).k.leases[c.lease].claims == c.claims
  {
    assert WellFormed(k.graph);
    hide Inv, WellFormed;
    FlattenUnique(picked);
    forall i | 0 <= i < |c.claims|
      ensures Admitted(k, c.claims[i])
    {
      SolutionAdmitted(k, r, picked, c.claims[i]);
    }
    hide Solution, Admitted, Open;
    AdmittedOpens(k, c);
  }

  lemma AdmittedOpens(k: Kernel, c: Command)
    requires k.agreed && c.OpenLease? && c.lease !in k.leases && c.parent.None? && c.revision == k.graph.revision
    requires UniqueNodes(c.claims) && forall i :: 0 <= i < |c.claims| ==> Admitted(k, c.claims[i])
    ensures Open(k, c).Accepted? && Open(k, c).k.leases[c.lease].claims == c.claims
  {
    hide NodeQuarantined, CanCover, Resolvable, OccupancyExcept;
    ResolveIsStable(k.graph, c.claims);
    FreshOccupancy(k, c.lease);
  }

  lemma FreshOccupancy(k: Kernel, id: LeaseId)
    requires id !in k.leases
    ensures OccupancyExcept(k, {id}) == OccupancyExcept(k, {})
  {
    assert OccupyingExcept(k.leases, k.bindings, {id}) == OccupyingExcept(k.leases, k.bindings, {});
  }

  /** Opens a root lease with a fresh id on `claims` at the current revision. */
  predicate RootOpening(k: Kernel, c: Command, claims: seq<Claim>) {
    c.OpenLease? && c.lease !in k.leases && c.parent.None? && c.claims == claims && c.revision == k.graph.revision
  }

  /** `Cluster::allocate`: whatever it returns can be opened, or reserved, right away. */
  method Allocate(cluster: Cluster, r: Request) returns (claims: Option<seq<Claim>>)
    requires cluster.Valid()
    ensures claims.Some? && cluster.agreed ==>
              forall c: Command :: RootOpening(cluster.State(), c, claims.value) ==> Open(cluster.State(), c).Accepted?
  {
    var used := cluster.OccupancyExceptLeases({});
    var k := cluster.State();
    assert WellFormed(k.graph);
    hide Inv, WellFormed, Solution, OccupancyExcept;
    var picked := SelectPlacement(Scene(k.graph, used, PlacementBlocked(k)), r);
    if picked.None? {
      return None;
    }
    if cluster.agreed {
      forall c: Command | RootOpening(k, c, Flatten(picked.value))
        ensures Open(k, c).Accepted?
      {
        SolutionOpens(k, r, picked.value, c);
      }
    }
    return Some(Flatten(picked.value));
  }
}
