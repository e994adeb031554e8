/** One concrete cluster: a machine that is claimed whole by a root lease, which delegates
    twice. It shows that some things the code takes for granted do happen. */
module Scenario {
  import opened Forest
  import opened Quantities
  import opened ResourceGraph
  import opened Facts
  import opened Occupancy
  import opened Kernel

  const HOST: NodeId := 1
  const SESSION := 5
  const CONTRACT := ClaimBinding(7, Exclusive)

  function Amounts(q: nat): Quantity {
    map[COUNT := q]
  }

  function Host(q: nat): Node {
    Node(HOST, MACHINE, map[], Amounts(q))
  }

  function Whole(q: nat): seq<Claim> {
    [Claim(HOST, Amounts(q))]
  }

  function Describe(q: nat): Command {
    ApplyResourceFactsCmd([Host(q)], [], [ClaimBindingUpdate(HOST, COUNT, Some(CONTRACT))])
  }

  function OpenFor(q: nat, lease: LeaseId, parent: Option<LeaseId>, expiresAt: nat): Command {
    OpenLease(lease, 0, Whole(q), 1, parent, expiresAt, 20, 0)
  }

  const BIND := OpenBinding(1, 1, HOST, 7, Exclusive)

  /** The graph after the machine was described. */
  ghost predicate Described(g: Graph, q: nat) {
    && g.revision == 1 && g.nodes == map[HOST := Host(q)] && g.parent == map[]
    && g.claimBindings == map[HOST := map[COUNT := CONTRACT]]
  }

  function State(g: Graph, leases: Leases, bindings: Bindings): Kernel {
    Kernel(1, 0, true, false, g, leases, bindings, map[HOST := SESSION],
           if bindings == map[] then map[] else map[(7, HOST) := 1], map[])
  }

  function LeaseFor(q: nat, parent: Option<LeaseId>, expiresAt: nat, s: LeaseState): Lease {
    Lease(0, Whole(q), 1, parent, expiresAt, 20, 0, s, None)
  }

  function BindingFor(s: BindingState, handle: Option<nat>): Binding {
    Binding(1, HOST, 7, Exclusive, 1, SESSION, s, handle)
  }

  /* ---------- the graph ---------- */

  lemma NoCycle()
    ensures Acyclic(map[]) && ValidContains([])
  {
    assert IsRank(map[], map[]);
  }

  lemma FactsApply(q: nat)
    ensures ApplyFacts(EmptyGraph(), [Host(q)], []).Some?
    ensures var g := ApplyFacts(EmptyGraph(), [Host(q)], []).value;
            g.nodes == map[HOST := Host(q)] && g.parent == map[]
              && g == EmptyGraph().(nodes := g.nodes, edges := g.edges,
              parent := g.parent, children := g.children, byClass := g.byClass)
  {
    NoCycle();
    assert [Host(q)][..0] == [];
    assert StageNodes(map[], [Host(q)]) == map[HOST := Host(q)];
    assert StageEdges([], []) == [];
  }

  lemma GraphDescribed(q: nat)
    requires q > 0
    ensures var c := Describe(q);
            var g := ApplyResourceFacts(EmptyGraph(), c.nodes, c.edges, c.updates);
            g.Some? && Described(g.value, q)
  {
    FactsApply(q);
    var c := Describe(q);
    assert c.updates[..0] == [];
    hide ApplyFacts;
    assert SetContracts(EmptyGraph(), c.updates, false) == Some(EmptyGraph());
    var staged := ApplyUnowned(EmptyGraph(), c.nodes, c.edges).value;
    assert SetContracts(staged, [], true) == Some(staged);
  }

  lemma HostIsMachine(g: Graph, q: nat)
    requires Described(g, q)
    ensures MachineOf(g, HOST) == Some(HOST) && Ancestors(g.parent, HOST) == []
    ensures q > 0 ==> ContractFor(g, HOST, Amounts(q)) == Some(CONTRACT)
  {
    assert [HOST] + [] == [HOST];
    if q > 0 {
      assert Demanded(Amounts(q), COUNT);
      assert IsContractFor(g, HOST, Amounts(q), CONTRACT);
      ContractUnique(g, HOST, Amounts(q), CONTRACT);
    }
  }

  lemma StepDescribe(q: nat)
    requires q > 0
    ensures Step(Initial(), Describe(q)).Accepted?
    ensures var o := Step(Initial(), Describe(q));
            Described(o.k.graph, q) && o == Accepted(Initial().(graph := o.k.graph), {})
  {
    GraphDescribed(q);
    hide ApplyResourceFacts;
    EmptyInstalls(ApplyResourceFacts(EmptyGraph(), Describe(q).nodes, Describe(q).edges, Describe(q).updates).value);
    hide Install, Described;
  }

  lemma EmptyInstalls(g: Graph)
    ensures Install(Initial(), Some(g)) == Accepted(Initial().(graph := g), {})
  {
    assert Occ(map[], map[]) == {};
    assert UsedNodes(map[], {}) == {};
  }

  lemma StepSession(g: Graph, q: nat)
    requires Described(g, q)
    ensures Step(Initial().(graph := g), SetAgentSession(HOST, SESSION)) ==
            Accepted(State(g, map[], map[]), {Reconcile(HOST, SESSION, 1, {})})
  {
    assert LiveMachineBindings(Initial().(graph := g), HOST) == {};
  }

  /* ---------- the root lease ---------- */

  lemma NothingUsed(leases: Leases)
    ensures UsedBy(leases, {}) == map[]
  {
    assert UsedNodes(leases, {}) == {};
  }

  lemma WholeFits(q: nat)
    ensures Le(Amounts(q), SatSub(Amounts(q), map[])) && ClaimFits(Amounts(q), map[], Amounts(q))
  {
  }

  lemma WholeResolves(g: Graph, q: nat, k: Kernel)
    requires Described(g, q) && q > 0 && k.graph == g && k.nodeStates == map[]
    ensures Resolve(g, Whole(q)) == Whole(q) && UniqueNodes(Whole(q)) && AllResolvable(g, Whole(q))
            && NoneQuarantined(k, Whole(q))
  {
    HostIsMachine(g, q);
    hide ContractFor;
  }

  lemma StepOpenRoot(g: Graph, q: nat)
    requires Described(g, q) && q > 0
    ensures Step(State(g, map[], map[]), OpenFor(q, 1, None, 100)) ==
            Accepted(State(g, map[1 := LeaseFor(q, None, 100, Preparing)], map[]), {})
  {
    var k := State(g, map[], map[]);
    WholeResolves(g, q, k);
    WholeCovered(g, q, k);
    hide AllResolvable, NoneQuarantined, Resolve, UniqueNodes, CoversAll, OccupancyExcept;
  }

  lemma StepBind(g: Graph, q: nat)
    requires Described(g, q) && q > 0
    ensures var leases := map[1 := LeaseFor(q, None, 100, Preparing)];
            Step(State(g, leases, map[]), BIND) ==
            Accepted(State(g, leases, map[1 := BindingFor(BPreparing, None)]), {Request(Prepare)})
  {
    HostIsMachine(g, q);
    hide ContractFor, MachineOf;
    var k := State(g, map[1 := LeaseFor(q, None, 100, Preparing)], map[]);
    assert FindClaim(Whole(q), HOST) == Some(Claim(HOST, Amounts(q)));
    assert SessionOf(k, HOST) == Some(SESSION);
    assert !NodeQuarantined(k, HOST);
    assert MayBind(k, BIND);
    hide MayBind;
    var k' := State(g, k.leases, map[1 := BindingFor(BPreparing, None)]);
    assert SessionOf(k', HOST) == Some(SESSION);
  }

  function Request(op: Op): Effect {
    Drive(op, 1, HOST, 7, 1, SESSION, 1)
  }

  lemma StepPrepared(g: Graph, q: nat)
    requires Described(g, q)
    ensures var leases := map[1 := LeaseFor(q, None, 100, Preparing)];
            Step(State(g, leases, map[1 := BindingFor(BPreparing, None)]), RecordPrepared(1, SESSION, 0, 1)) ==
            Accepted(State(g, leases, map[1 := BindingFor(BPreparing, Some(0))]), {})
  {
    HostIsMachine(g, q);
    hide MachineOf;
  }

  lemma StepActivate(g: Graph, q: nat)
    requires Described(g, q) && q > 0
    ensures var bindings := map[1 := BindingFor(BPreparing, Some(0))];
            Step(State(g, map[1 := LeaseFor(q, None, 100, Preparing)], bindings), ActivateLease(1)) ==
            Accepted(State(g, map[1 := LeaseFor(q, None, 100, Active)], bindings), {})
  {
    var k := State(g, map[1 := LeaseFor(q, None, 100, Preparing)], map[1 := BindingFor(BPreparing, Some(0))]);
    WholeResolves(g, q, k);
    hide AllResolvable, NoneQuarantined, Resolve, UniqueNodes, CoversAll, OccupancyExcept;
    WholeCovered(g, q, k);
    assert 1 in k.bindings && PreparedOn(k.bindings, 1, HOST);
    assert MayActivate(k, 1);
    hide MayActivate;
  }

  lemma WholeCovered(g: Graph, q: nat, k: Kernel)
    requires Described(g, q) && k.leases.Keys <= {1}
    ensures CoversAll(g, OccupancyExcept(k, {1}), Whole(q))
  {
    assert OccupyingExcept(k.leases, k.bindings, {1}) == {};
    hide UsedBy;
    NothingUsed(k.leases);
    WholeFits(q);
    hide Le, SatSub;
  }

  /* ---------- the root lease ends ---------- */

  lemma NoneBelow(leases: Leases, l: LeaseId)
    requires leases.Keys == {1} && leases[1].parent.None?
    ensures !Below(leases, l, 1)
  {
    assert LeaseParents(leases) == map[];
  }

  lemma StepRevoke(g: Graph, q: nat, s: LeaseState, x: Binding)
    requires Live(s)
    ensures var k := State(g, map[1 := LeaseFor(q, None, 100, s)], map[1 := x]);
            Step(k, RevokeLease(1)).Accepted?
            && Step(k, RevokeLease(1)).k == State(g, map[1 := LeaseFor(q, None, 100, Revoked)], map[1 := x])
  {
    hide Revoke;
    RevokedAlone(State(g, map[1 := LeaseFor(q, None, 100, s)], map[1 := x]));
  }

  lemma RevokedAlone(k: Kernel)
    requires k.leases.Keys == {1} && k.leases[1].parent.None? && Live(k.leases[1].state)
    ensures Revoke(k, 1).Accepted? && Revoke(k, 1).k == SetState(k, 1, Revoked)
  {
    NothingCascades(k.leases);
    hide CascadeLeases, BelowFences, EffectsOf;
  }

  lemma NothingCascades(leases: Leases)
    requires leases.Keys == {1} && leases[1].parent.None?
    ensures CascadeLeases(leases, 1, Revoked, SETTLED) == leases
  {
    forall l ensures !Below(leases, l, 1) { NoneBelow(leases, l); }
    hide Below;
  }

  lemma StepActivateBinding(g: Graph, q: nat)
    requires Described(g, q)
    ensures var leases := map[1 := LeaseFor(q, None, 100, Active)];
            Step(State(g, leases, map[1 := BindingFor(BPreparing, Some(0))]), ActivateBinding(1)) ==
            Accepted(State(g, leases, map[1 := BindingFor(BActive, Some(0))]), {Request(Activate)})
  {
    HostIsMachine(g, q);
    hide MachineOf;
  }

  /* ---------- two delegations ---------- */

  const PREPARED_BINDING := map[1 := BindingFor(BPreparing, Some(0))]

  lemma StepDelegate(g: Graph, q: nat, leases: Leases, p: LeaseId, id: LeaseId, expiresAt: nat)
    requires Described(g, q) && q > 0 && id !in leases && p in leases
    requires leases[p].state == Active && leases[p].claims == Whole(q)
    requires forall l :: l in leases ==> leases[l].parent != Some(p)
    ensures Step(State(g, leases, PREPARED_BINDING), OpenFor(q, id, Some(p), expiresAt)) ==
            Accepted(State(g, leases[id := LeaseFor(q, Some(p), expiresAt, Preparing)], PREPARED_BINDING), {})
  {
    var k := State(g, leases, PREPARED_BINDING);
    WholeResolves(g, q, k);
    hide AllResolvable, NoneQuarantined, Resolve, UniqueNodes, FitsParent;
    WholeFitsParent(k, q, p, id);
  }

  lemma WholeFitsParent(k: Kernel, q: nat, p: LeaseId, id: LeaseId)
    requires p in k.leases && k.leases[p].state == Active && k.leases[p].claims == Whole(q)
    requires forall l :: l in k.leases ==> k.leases[l].parent != Some(p)
    ensures FitsParent(k, id, p, Whole(q))
  {
    hide UsedBy, OccupyingExcept, Covers, FitsBesideSiblings;
    assert Kids(k.leases, OccupyingExcept(k.leases, k.bindings, {id}), p) == {};
    NothingUsed(k.leases);
    WholeBesideNothing(q);
  }

  lemma WholeBesideNothing(q: nat)
    ensures Covers(Whole(q), Whole(q)) && FitsBesideSiblings(Whole(q), map[], Whole(q))
  {
    WholeFits(q);
    assert Whole(q)[0].node == HOST;
    assert FindClaim(Whole(q), HOST) == Some(Claim(HOST, Amounts(q)));
    hide ClaimFits, FindClaim;
  }

  lemma StepActivateChild(g: Graph, q: nat, leases: Leases, id: LeaseId, p: LeaseId, expiresAt: nat)
    requires Described(g, q) && q > 0 && id != 1 && expiresAt > 0
    requires id in leases && leases[id] == LeaseFor(q, Some(p), expiresAt, Preparing) && p in leases
             && leases[p].state == Active
    ensures Step(State(g, leases, PREPARED_BINDING), ActivateLease(id)) ==
            Accepted(State(g, leases[id := LeaseFor(q, Some(p), expiresAt, Active)], PREPARED_BINDING), {})
  {
    var k := State(g, leases, PREPARED_BINDING);
    WholeResolves(g, q, k);
    hide NoneQuarantined, OccupancyExcept;
    assert BindingsPrepared(k.bindings, id);
    assert MayActivate(k, id);
  }
}
