/** What a placement is (crates/kernel/src/select.rs): needs, topology constraints, the
    nodes that may serve a need, and when a choice of claims is a solution. */
module Placement {
  import opened Forest
  import opened Quantities
  import opened ResourceGraph
  import opened Occupancy
  import opened Kernel

  datatype Relation =
    | SameAncestor(kind: ResourceClass) | DifferentAncestor(kind: ResourceClass) | Containment | Linked | Cached

  datatype Constraint = Constraint(left: nat, right: nat, relation: Relation)

  datatype Need = Need(kind: ResourceClass, quantity: Quantity, filters: seq<(string, string)>)

  datatype Request = Request(
    id: nat, needs: seq<Need>, topology: seq<Constraint>, lifetime: nat, priority: nat, machineLocal: bool)

  /** What a placement is searched in: facts, occupancy and the blocked nodes. */
  datatype Scene = Scene(graph: Graph, used: Used, blocked: set<NodeId>)

  type Groups = seq<seq<Claim>>

  /* ---------- needs ---------- */

  predicate Consumable(need: Need) {
    need.kind == MEMORY || exists d :: d in need.quantity && d != COUNT
  }

  function Unit(need: Need): Quantity {
    if need.kind == MEMORY then map[BYTES := Get(need.quantity, BYTES)]
    else if Consumable(need) then need.quantity
    else map[COUNT := 1]
  }

  function GroupSize(need: Need): nat {
    if Consumable(need) || Get(need.quantity, COUNT) < 1 then 1 else Get(need.quantity, COUNT)
  }

  predicate Barred(g: Graph, blocked: set<NodeId>, n: NodeId) {
    n in blocked || exists a :: a in Ancestors(g.parent, n) && a in blocked
  }

  predicate PassesFilters(node: Node, filters: seq<(string, string)>) {
    forall i :: 0 <= i < |filters| ==> filters[i].0 in node.attrs && node.attrs[filters[i].0] == filters[i].1
  }

  ghost predicate Candidate(s: Scene, need: Need, n: NodeId) {
    && need.kind != DATA_OBJECT
    && IsClass(s.graph, n, need.kind)
    && ContractFor(s.graph, n, Unit(need)).Some?
    && !Barred(s.graph, s.blocked, n)
    && PassesFilters(s.graph.nodes[n], need.filters)
    && CanCover(s.graph, s.used, Claim(n, Unit(need)))
  }

  method IsCandidate(s: Scene, need: Need, n: NodeId) returns (ok: bool)
    requires need.kind != DATA_OBJECT && IsClass(s.graph, n, need.kind)
    ensures ok <==> Candidate(s, need, n)
  {
    var contract := ClaimBindingForQuantity(s.graph, n, Unit(need));
    return contract.Some? && !Barred(s.graph, s.blocked, n) && PassesFilters(s.graph.nodes[n], need.filters)
      && CanCover(s.graph, s.used, Claim(n, Unit(need)));
  }

  method Candidates(s: Scene, need: Need) returns (out: seq<NodeId>)
    requires WellFormed(s.graph)
    ensures Distinct(out) && forall n :: n in out <==> Candidate(s, need, n)
  {
    out := [];
    if need.kind == DATA_OBJECT {
      return;
    }
    var members := ClassMembers(s.graph, need.kind);
    assert Ascending(members) && forall n :: n in members <==> IsClass(s.graph, n, need.kind);
    assert forall n :: Candidate(s, need, n) ==> n in members;
    hide WellFormed, Candidate;
    for i := 0 to |members|
      invariant Distinct(out)
      invariant forall n :: n in out <==> n in members[..i] && Candidate(s, need, n)
    {
      var n := members[i];
      assert n in members && n !in members[..i];
      var ok := IsCandidate(s, need, n);
      if ok {
        out := out + [n];
      }
      assert members[..i + 1] == members[..i] + [n];
    }
    assert members[..|members|] == members;
  }

  /** The scored order of the candidates. No property here depends on the scores, so all
      that is promised is that every candidate appears once. */
  method Rank(candidates: seq<NodeId>) returns (ranked: seq<NodeId>)
    requires Distinct(candidates)
    ensures Distinct(ranked) && forall n :: n in ranked <==> n in candidates
  {
    ranked := candidates;
  }

  /* ---------- topology ---------- */

  predicate HasEdge(g: Graph, l: NodeId, r: NodeId, kind: EdgeKind) {
    Holds(g.edges, EdgeKey(l, r, kind)) || Holds(g.edges, EdgeKey(r, l, kind))
  }

  predicate Satisfies(g: Graph, l: NodeId, r: NodeId, relation: Relation) {
    match relation
    case SameAncestor(kind) => AncestorOfClass(g, l, kind).Some?
      && AncestorOfClass(g, l, kind) == AncestorOfClass(g, r, kind)
    case DifferentAncestor(kind) =>
      AncestorOfClass(g, l, kind).Some? && AncestorOfClass(g, r, kind).Some?
      && AncestorOfClass(g, l, kind) != AncestorOfClass(g, r, kind)
    case Containment => l in Ancestors(g.parent, r) || r in Ancestors(g.parent, l)
    case Linked => HasEdge(g, l, r, Connected)
    case Cached => HasEdge(g, l, r, CachedOn)
  }

  predicate PairsSatisfy(g: Graph, left: seq<Claim>, right: seq<Claim>, relation: Relation) {
    forall i, j :: 0 <= i < |left| && 0 <= j < |right| ==> Satisfies(g, left[i].node, right[j].node, relation)
  }

  /** Constraints between needs that have been placed hold between all their claims. */
  predicate ConstraintsHold(g: Graph, topology: seq<Constraint>, picked: Groups) {
    forall t :: 0 <= t < |topology| && topology[t].left < |picked| && topology[t].right < |picked| ==>
      PairsSatisfy(g, picked[topology[t].left], picked[topology[t].right], topology[t].relation)
  }

  predicate Apart(a: seq<Claim>, b: seq<Claim>) {
    forall i, j :: 0 <= i < |a| && 0 <= j < |b| ==> a[i].node != b[j].node
  }

  /** No node is claimed twice, within a need or across needs. */
  predicate ClaimsUnique(picked: Groups) {
    && (forall g :: 0 <= g < |picked| ==> UniqueNodes(picked[g]))
    && (forall g, h :: 0 <= g < h < |picked| ==> Apart(picked[g], picked[h]))
  }

  predicate TopologyHolds(g: Graph, topology: seq<Constraint>, picked: Groups) {
    ClaimsUnique(picked) && ConstraintsHold(g, topology, picked)
  }

  /** `part` holds the first claims of every need of `whole`. */
  ghost predicate PartOf(part: Groups, whole: Groups) {
    |part| <= |whole| && forall g :: 0 <= g < |part| ==> part[g] <= whole[g]
  }

  /** Pruning is safe: whatever holds of a full assignment holds of every part of it. */
  lemma PartHolds(g: Graph, topology: seq<Constraint>, part: Groups, whole: Groups)
    requires PartOf(part, whole) && TopologyHolds(g, topology, whole)
    ensures TopologyHolds(g, topology, part)
  {
  }

  /* ---------- solutions ---------- */

  ghost predicate GoodClaim(s: Scene, allowed: set<NodeId>, need: Need, c: Claim) {
    c.quantity == Unit(need) && c.node in allowed && Candidate(s, need, c.node)
  }

  ghost predicate GroupMeets(s: Scene, allowed: set<NodeId>, need: Need, group: seq<Claim>) {
    |group| == GroupSize(need) && forall i :: 0 <= i < |group| ==> GoodClaim(s, allowed, need, group[i])
  }

  /** Every need is met inside `allowed`, no node twice, every constraint satisfied. */
  ghost predicate Solution(s: Scene, allowed: set<NodeId>, r: Request, picked: Groups) {
    && |picked| == |r.needs|
    && (forall i :: 0 <= i < |picked| ==> GroupMeets(s, allowed, r.needs[i], picked[i]))
    && TopologyHolds(s.graph, r.topology, picked)
  }
}
