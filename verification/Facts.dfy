/** Fact updates of the resource graph (crates/kernel/src/graph.rs). Every update
    is staged on a copy and either replaces the graph or leaves it alone. */
module Facts {
  import opened Forest
  import opened Quantities
  import opened ResourceGraph

  function StageNodes(nodes: map<NodeId, Node>, updates: seq<Node>): map<NodeId, Node> {
    if updates == [] then nodes
    else
      var last := updates[|updates| - 1];
      StageNodes(nodes, updates[..|updates| - 1])[last.id := last]
  }

  /** A new edge is appended; a stored one takes the new attributes. */
  function MergeEdge(edges: seq<Edge>, e: Edge): seq<Edge> {
    if Holds(edges, e.key) then
      seq(|edges|, i requires 0 <= i < |edges| => if edges[i].key == e.key then e else edges[i])
    else edges + [e]
  }

  function StageEdges(edges: seq<Edge>, updates: seq<Edge>): seq<Edge> {
    if updates == [] then edges
    else MergeEdge(StageEdges(edges, updates[..|updates| - 1]), updates[|updates| - 1])
  }

  predicate ValidClaimBindings(nodes: map<NodeId, Node>, contracts: map<NodeId, map<Dimension, ClaimBinding>>) {
    forall n :: n in contracts ==>
      n in nodes && forall d :: d in contracts[n] ==> Get(nodes[n].capacity, d) > 0
  }

  predicate FreeOfHealth(nodes: seq<Node>) {
    forall i :: 0 <= i < |nodes| ==> HEALTH !in nodes[i].attrs
  }

  predicate EndpointsKnown(nodes: map<NodeId, Node>, edges: seq<Edge>) {
    forall i :: 0 <= i < |edges| ==> edges[i].key.from in nodes && edges[i].key.to in nodes
  }

  ghost function ApplyFacts(g: Graph, nodes: seq<Node>, edges: seq<Edge>): Option<Graph> {
    var staged := StageNodes(g.nodes, nodes);
    var stored := StageEdges(g.edges, edges);
    if FreeOfHealth(nodes) && EndpointsKnown(staged, edges) && ValidContains(stored)
       && ValidClaimBindings(staged, g.claimBindings)
    then
      var parent: ParentMap := ParentIndex(stored);
      Some(g.(nodes := staged, edges := stored, parent := parent,
              children := Inverse(parent), byClass := Inverse(KindMap(staged))))
    else None
  }

  predicate HasWriters(g: Graph) {
    g.nodeWriters != map[] || g.edgeWriters != map[]
  }

  ghost function ApplyUnowned(g: Graph, nodes: seq<Node>, edges: seq<Edge>): Option<Graph> {
    if (nodes != [] || edges != []) && HasWriters(g) then None
    else
      match ApplyFacts(g, nodes, edges)
      case None => None
      case Some(staged) => Some(staged.(revision := Successor(staged.revision)))
  }

  predicate UniqueUpdates(updates: seq<ClaimBindingUpdate>) {
    forall i, j :: 0 <= i < j < |updates| ==>
      updates[i].node != updates[j].node || updates[i].dimension != updates[j].dimension
  }

  function SetContract(g: Graph, u: ClaimBindingUpdate): Option<Graph> {
    if u.node !in g.nodes then None
    else
      var held := if u.node in g.claimBindings then g.claimBindings[u.node] else map[];
      match u.binding
      case Some(cb) => Some(g.(claimBindings := g.claimBindings[u.node := held[u.dimension := cb]]))
      case None =>
        var rest := held - {u.dimension};
        Some(g.(claimBindings := if rest == map[] then g.claimBindings - {u.node} else g.claimBindings[u.node := rest]))
  }

  /** Apply the withdrawals (`adding` false) or the grants (`adding` true), in order. */
  function SetContracts(g: Graph, updates: seq<ClaimBindingUpdate>, adding: bool): Option<Graph> {
    if updates == [] then Some(g)
    else
      match SetContracts(g, updates[..|updates| - 1], adding)
      case None => None
      case Some(staged) =>
        var u := updates[|updates| - 1];
        if u.binding.Some? == adding then SetContract(staged, u) else Some(staged)
  }

  /** Close a staged update: grant the new contracts and publish one new revision. */
  function Publish(g: Graph, staged: Graph, updates: seq<ClaimBindingUpdate>): Option<Graph> {
    match SetContracts(staged, updates, true)
    case None => None
    case Some(final) =>
      if ValidClaimBindings(final.nodes, final.claimBindings)
      then Some(final.(revision := Successor(g.revision)))
      else None
  }

  ghost function ApplyResourceFacts(g: Graph, nodes: seq<Node>, edges: seq<Edge>, updates: seq<ClaimBindingUpdate>)
    : Option<Graph>
  {
    if !UniqueUpdates(updates) then None
    else
      match SetContracts(g, updates, false)
      case None => None
      case Some(withdrawn) =>
        match ApplyUnowned(withdrawn, nodes, edges)
        case None => None
        case Some(staged) => Publish(g, staged, updates)
  }

  function NodeIds(nodes: seq<Node>): seq<NodeId> {
    seq(|nodes|, i requires 0 <= i < |nodes| => nodes[i].id)
  }

  function EdgeKeys(edges: seq<Edge>): seq<EdgeKey> {
    seq(|edges|, i requires 0 <= i < |edges| => edges[i].key)
  }

  function BatchNodes(batches: seq<FactBatch>): seq<NodeId> {
    if batches == [] then [] else NodeIds(batches[0].nodes) + BatchNodes(batches[1..])
  }

  function BatchEdges(batches: seq<FactBatch>): seq<EdgeKey> {
    if batches == [] then [] else EdgeKeys(batches[0].edges) + BatchEdges(batches[1..])
  }

  /** A writer may touch new facts and its own facts, nothing else. */
  predicate BatchAllowed(g: Graph, b: FactBatch) {
    && (forall i :: 0 <= i < |b.nodes| ==>
          var n := b.nodes[i].id;
          if n in g.nodeWriters then g.nodeWriters[n] == b.writer else n !in g.nodes)
    && (forall i :: 0 <= i < |b.edges| ==>
          var k := b.edges[i].key;
          if k in g.edgeWriters then g.edgeWriters[k] == b.writer else !Holds(g.edges, k))
  }

  function Own<K(==)>(writers: map<K, WriterId>, keys: seq<K>, writer: WriterId): map<K, WriterId> {
    writers + map k | k in keys :: writer
  }

  ghost function ApplyBatches(g: Graph, batches: seq<FactBatch>): Option<Graph> {
    if batches == [] then Some(g)
    else
      match ApplyBatches(g, batches[..|batches| - 1])
      case None => None
      case Some(before) =>
        var b := batches[|batches| - 1];
        if !BatchAllowed(before, b) then None
        else
          match ApplyFacts(before, b.nodes, b.edges)
          case None => None
          case Some(staged) =>
            Some(staged.(nodeWriters := Own(staged.nodeWriters, NodeIds(b.nodes), b.writer),
                         edgeWriters := Own(staged.edgeWriters, EdgeKeys(b.edges), b.writer)))
  }

  ghost function ApplyProviderFacts(g: Graph, batches: seq<FactBatch>, updates: seq<ClaimBindingUpdate>)
    : Option<Graph>
  {
    if !UniqueUpdates(updates) || !Distinct(BatchNodes(batches)) || !Distinct(BatchEdges(batches)) then None
    else
      match SetContracts(g, updates, false)
      case None => None
      case Some(withdrawn) =>
        match ApplyBatches(withdrawn, batches)
        case None => None
        case Some(staged) => Publish(g, staged, updates)
  }

  function AssignedNodes(assignments: seq<WriterAssignment>): seq<NodeId> {
    if assignments == [] then [] else assignments[0].nodes + AssignedNodes(assignments[1..])
  }

  function AssignedEdges(assignments: seq<WriterAssignment>): seq<EdgeKey> {
    if assignments == [] then [] else assignments[0].edges + AssignedEdges(assignments[1..])
  }

  predicate MayAdopt(g: Graph, a: WriterAssignment) {
    && (forall i :: 0 <= i < |a.nodes| ==>
          a.nodes[i] in g.nodes && (a.nodes[i] in g.nodeWriters ==> g.nodeWriters[a.nodes[i]] == a.writer))
    && (forall i :: 0 <= i < |a.edges| ==>
          Holds(g.edges, a.edges[i]) && (a.edges[i] in g.edgeWriters ==> g.edgeWriters[a.edges[i]] == a.writer))
  }

  function Adopted(g: Graph, assignments: seq<WriterAssignment>): Graph {
    if assignments == [] then g
    else
      var before := Adopted(g, assignments[..|assignments| - 1]);
      var a := assignments[|assignments| - 1];
      before.(nodeWriters := Own(before.nodeWriters, a.nodes, a.writer),
              edgeWriters := Own(before.edgeWriters, a.edges, a.writer))
  }

  /** Names are unique across the update, so checking against the staged writers is
      checking against the writers at the start. */
  function AdoptFactWriters(g: Graph, assignments: seq<WriterAssignment>): Option<Graph> {
    if Distinct(AssignedNodes(assignments)) && Distinct(AssignedEdges(assignments))
       && forall i :: 0 <= i < |assignments| ==> MayAdopt(g, assignments[i])
    then Some(Adopted(g, assignments))
    else None
  }

  function SetObservation(g: Graph, n: NodeId, key: string, value: string): Option<Graph> {
    if n !in g.nodes then None
    else
      var held := if n in g.observations then g.observations[n] else map[];
      Some(g.(observations := g.observations[n := held[key := value]]))
  }

  /* ---------- every reachable graph is well formed ---------- */

  lemma {:induction false} StageNodesKeeps(nodes: map<NodeId, Node>, updates: seq<Node>)
    requires forall n :: n in nodes ==> nodes[n].id == n
    ensures nodes.Keys <= StageNodes(nodes, updates).Keys
    ensures forall n :: n in StageNodes(nodes, updates) ==> StageNodes(nodes, updates)[n].id == n
  {
    if updates != [] {
      StageNodesKeeps(nodes, updates[..|updates| - 1]);
    }
  }

  lemma MergeEdgeKeeps(edges: seq<Edge>, e: Edge)
    requires UniqueKeys(edges)
    ensures UniqueKeys(MergeEdge(edges, e))
    ensures forall i :: 0 <= i < |MergeEdge(edges, e)| ==>
              MergeEdge(edges, e)[i].key == e.key || (i < |edges| && MergeEdge(edges, e)[i].key == edges[i].key)
  {
  }

  lemma {:induction false} StageEdgesKeeps(nodes: map<NodeId, Node>, edges: seq<Edge>, updates: seq<Edge>)
    requires UniqueKeys(edges) && EndpointsKnown(nodes, edges) && EndpointsKnown(nodes, updates)
    ensures UniqueKeys(StageEdges(edges, updates)) && EndpointsKnown(nodes, StageEdges(edges, updates))
  {
    if updates != [] {
      StageEdgesKeeps(nodes, edges, updates[..|updates| - 1]);
      MergeEdgeKeeps(StageEdges(edges, updates[..|updates| - 1]), updates[|updates| - 1]);
    }
  }

  lemma ApplyFactsKeeps(g: Graph, nodes: seq<Node>, edges: seq<Edge>)
    requires WellFormed(g) && ApplyFacts(g, nodes, edges).Some?
    ensures WellFormed(ApplyFacts(g, nodes, edges).value)
    ensures g.nodes.Keys <= ApplyFacts(g, nodes, edges).value.nodes.Keys
  {
    var staged := ApplyFacts(g, nodes, edges).value;
    StageNodesKeeps(g.nodes, nodes);
    StageEdgesKeeps(staged.nodes, g.edges, edges);
    RebuiltAgrees(staged);
  }

  /** Graphs that differ only in contracts, ownership, observations and revision. */
  ghost predicate SameTopology(g: Graph, h: Graph) {
    g.nodes == h.nodes && g.edges == h.edges && g.parent == h.parent
    && g.children == h.children && g.byClass == h.byClass
  }

  lemma SameTopologyKeeps(g: Graph, h: Graph)
    requires WellFormed(g) && SameTopology(g, h)
    ensures WellFormed(h)
  {
    assert forall p :: ChildrenOf(h, p) == ChildrenOf(g, p);
    assert forall k :: ClassMembers(h, k) == ClassMembers(g, k);
    assert forall n, k :: IsClass(h, n, k) == IsClass(g, n, k);
  }

  lemma {:induction false} SetContractsKeeps(g: Graph, updates: seq<ClaimBindingUpdate>, adding: bool)
    ensures SetContracts(g, updates, adding).Some? ==>
              SameTopology(g, SetContracts(g, updates, adding).value)
              && SetContracts(g, updates, adding).value.revision == g.revision
  {
    if updates != [] {
      SetContractsKeeps(g, updates[..|updates| - 1], adding);
    }
  }

  lemma {:induction false} ApplyBatchesKeeps(g: Graph, batches: seq<FactBatch>)
    requires WellFormed(g) && ApplyBatches(g, batches).Some?
    ensures WellFormed(ApplyBatches(g, batches).value)
    ensures g.nodes.Keys <= ApplyBatches(g, batches).value.nodes.Keys
  {
    if batches != [] {
      var prefix, b := batches[..|batches| - 1], batches[|batches| - 1];
      ApplyBatchesKeeps(g, prefix);
      var before := ApplyBatches(g, prefix).value;
      ApplyFactsKeeps(before, b.nodes, b.edges);
      SameTopologyKeeps(ApplyFacts(before, b.nodes, b.edges).value, ApplyBatches(g, batches).value);
    }
  }

  lemma {:induction false} AdoptedKeeps(g: Graph, assignments: seq<WriterAssignment>)
    ensures SameTopology(g, Adopted(g, assignments))
    ensures Adopted(g, assignments).revision == g.revision
    ensures Adopted(g, assignments).claimBindings == g.claimBindings
    ensures Adopted(g, assignments).observations == g.observations
  {
    if assignments != [] {
      AdoptedKeeps(g, assignments[..|assignments| - 1]);
    }
  }

  /** What every accepted fact update keeps: well-formedness, the known nodes and a
      revision that never goes back. */
  ghost predicate Updates(g: Graph, result: Option<Graph>) {
    result.Some? ==>
      WellFormed(result.value) && g.nodes.Keys <= result.value.nodes.Keys && g.revision <= result.value.revision
  }

  lemma ApplyUnownedKeeps(g: Graph, nodes: seq<Node>, edges: seq<Edge>)
    requires WellFormed(g)
    ensures Updates(g, ApplyUnowned(g, nodes, edges))
  {
    if ApplyUnowned(g, nodes, edges).Some? {
      ApplyFactsKeeps(g, nodes, edges);
      SameTopologyKeeps(ApplyFacts(g, nodes, edges).value, ApplyUnowned(g, nodes, edges).value);
    }
  }

  lemma PublishKeeps(g: Graph, staged: Graph, updates: seq<ClaimBindingUpdate>)
    requires WellFormed(staged) && g.nodes.Keys <= staged.nodes.Keys
    ensures Updates(g, Publish(g, staged, updates))
  {
    if Publish(g, staged, updates).Some? {
      SetContractsKeeps(staged, updates, true);
      SameTopologyKeeps(staged, Publish(g, staged, updates).value);
    }
  }

  lemma ApplyResourceFactsKeeps(g: Graph, nodes: seq<Node>, edges: seq<Edge>, updates: seq<ClaimBindingUpdate>)
    requires WellFormed(g)
    ensures Updates(g, ApplyResourceFacts(g, nodes, edges, updates))
  {
    if ApplyResourceFacts(g, nodes, edges, updates).Some? {
      SetContractsKeeps(g, updates, false);
      var withdrawn := SetContracts(g, updates, false).value;
      SameTopologyKeeps(g, withdrawn);
      ApplyUnownedKeeps(withdrawn, nodes, edges);
      PublishKeeps(g, ApplyUnowned(withdrawn, nodes, edges).value, updates);
    }
  }

  lemma ApplyProviderFactsKeeps(g: Graph, batches: seq<FactBatch>, updates: seq<ClaimBindingUpdate>)
    requires WellFormed(g)
    ensures Updates(g, ApplyProviderFacts(g, batches, updates))
  {
    if ApplyProviderFacts(g, batches, updates).Some? {
      SetContractsKeeps(g, updates, false);
      var withdrawn := SetContracts(g, updates, false).value;
      SameTopologyKeeps(g, withdrawn);
      ApplyBatchesKeeps(withdrawn, batches);
      PublishKeeps(g, ApplyBatches(withdrawn, batches).value, updates);
    }
  }

  /* ---------- the updates as the code runs them ---------- */

  method ApplyFactValues(g: Graph, nodes: seq<Node>, edges: seq<Edge>) returns (r: Option<Graph>)
    requires UniqueKeys(g.edges)
    ensures r == ApplyFacts(g, nodes, edges)
  {
    var staged := g.nodes;
    for i := 0 to |nodes|
      invariant staged == StageNodes(g.nodes, nodes[..i])
      invariant forall j :: 0 <= j < i ==> HEALTH !in nodes[j].attrs
    {
      assert nodes[..i + 1][..i] == nodes[..i];
      if HEALTH in nodes[i].attrs {
        return None;
      }
      staged := staged[nodes[i].id := nodes[i]];
    }
    assert nodes[..|nodes|] == nodes;
    var stored := g.edges;
    for i := 0 to |edges|
      invariant stored == StageEdges(g.edges, edges[..i]) && UniqueKeys(stored)
      invariant forall j :: 0 <= j < i ==> edges[j].key.from in staged && edges[j].key.to in staged
    {
      assert edges[..i + 1][..i] == edges[..i];
      if edges[i].key.from !in staged || edges[i].key.to !in staged {
        return None;
      }
      MergeEdgeKeeps(stored, edges[i]);
      stored := MergeEdge(stored, edges[i]);
    }
    assert edges[..|edges|] == edges;
    var ok := ValidateContains(stored);
    if !ok || !ValidClaimBindings(staged, g.claimBindings) {
      return None;
    }
    var parent, children, byClass := Rebuild(staged, stored);
    return Some(g.(nodes := staged, edges := stored, parent := parent, children := children, byClass := byClass));
  }

  method ApplyGraph(g: Graph, nodes: seq<Node>, edges: seq<Edge>) returns (r: Option<Graph>)
    requires UniqueKeys(g.edges)
    ensures r == ApplyUnowned(g, nodes, edges)
  {
    if (nodes != [] || edges != []) && HasWriters(g) {
      return None;
    }
    r := ApplyFactValues(g, nodes, edges);
    if r.Some? {
      r := Some(r.value.(revision := Successor(r.value.revision)));
    }
  }

  method ResourceFacts(g: Graph, nodes: seq<Node>, edges: seq<Edge>, updates: seq<ClaimBindingUpdate>)
    returns (r: Option<Graph>)
    requires UniqueKeys(g.edges)
    ensures r == ApplyResourceFacts(g, nodes, edges, updates)
  {
    if !UniqueUpdates(updates) {
      return None;
    }
    SetContractsKeeps(g, updates, false);
    var withdrawn := SetContracts(g, updates, false);
    if withdrawn.None? {
      return None;
    }
    var staged := ApplyGraph(withdrawn.value, nodes, edges);
    if staged.None? {
      return None;
    }
    return Publish(g, staged.value, updates);
  }

  method ProviderFacts(g: Graph, batches: seq<FactBatch>, updates: seq<ClaimBindingUpdate>)
    returns (r: Option<Graph>)
    requires WellFormed(g)
    ensures r == ApplyProviderFacts(g, batches, updates)
  {
    if !UniqueUpdates(updates) || !Distinct(BatchNodes(batches)) || !Distinct(BatchEdges(batches)) {
      return None;
    }
    SetContractsKeeps(g, updates, false);
    var withdrawn := SetContracts(g, updates, false);
    if withdrawn.None? {
      return None;
    }
    SameTopologyKeeps(g, withdrawn.value);
    var staged := withdrawn.value;
    for i := 0 to |batches|
      invariant ApplyBatches(withdrawn.value, batches[..i]) == Some(staged)
      invariant UniqueKeys(staged.edges)
    {
      assert batches[..i + 1][..i] == batches[..i];
      var b := batches[i];
      var next := if BatchAllowed(staged, b) then Some(b) else None;
      if next.None? {
        BatchRefusal(withdrawn.value, batches, i + 1);
        return None;
      }
      var applied := ApplyFactValues(staged, b.nodes, b.edges);
      if applied.None? {
        BatchRefusal(withdrawn.value, batches, i + 1);
        return None;
      }
      staged := applied.value.(nodeWriters := Own(applied.value.nodeWriters, NodeIds(b.nodes), b.writer),
                               edgeWriters := Own(applied.value.edgeWriters, EdgeKeys(b.edges), b.writer));
      ApplyBatchesKeeps(withdrawn.value, batches[..i + 1]);
    }
    assert batches[..|batches|] == batches;
    return Publish(g, staged, updates);
  }

  lemma {:induction false} BatchRefusal(g: Graph, batches: seq<FactBatch>, n: nat)
    requires n <= |batches| && ApplyBatches(g, batches[..n]).None?
    ensures ApplyBatches(g, batches).None?
  {
    if n == |batches| {
      assert batches[..n] == batches;
    } else {
      var prefix := batches[..|batches| - 1];
      assert prefix[..n] == batches[..n];
      BatchRefusal(g, prefix, n);
    }
  }
}
