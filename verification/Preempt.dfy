/** Preemption planning (crates/kernel/src/preempt.rs) against the authority kernel: what a
    plan promises, and that carrying it out keeps the promise. */
module Preempt {
  import opened Forest
  import opened ResourceGraph
  import opened Occupancy
  import opened Kernel
  import opened Authority
  import opened Runs
  import opened Placement
  import opened Select
  import opened ClusterObject

  /** Placement as a function of what it sees; every claim below holds for any. */
  type Selector = (Scene, Request) -> Option<seq<Claim>>

  /** The victims and everything delegated from them. */
  ghost function Evicted(leases: Leases, victims: set<LeaseId>): set<LeaseId> {
    victims + set l, v | v in victims && l in leases && Below(leases, l, v) :: l
  }

  /** The scene once `victims` are projected away. */
  ghost function Without(k: Kernel, victims: set<LeaseId>): Scene {
    Scene(k.graph, OccupancyExcept(k, Evicted(k.leases, victims)), PlacementBlocked(k))
  }

  ghost predicate Feasible(k: Kernel, select: Selector, r: Request, victims: set<LeaseId>) {
    select(Without(k, victims), r).Some?
  }

  function Eligible(k: Kernel, r: Request): set<LeaseId> {
    set l | l in k.leases && k.leases[l].parent.None? && k.leases[l].priority < r.priority
      && l in Occ(k.leases, k.bindings)
  }

  /** Lower priority goes first; among equals the younger id. */
  predicate Before(leases: Leases, a: LeaseId, b: LeaseId) {
    a in leases && b in leases
    && (leases[a].priority < leases[b].priority || (leases[a].priority == leases[b].priority && a > b))
  }

  predicate Ordered(leases: Leases, order: seq<LeaseId>) {
    forall i, j :: 0 <= i < j < |order| ==> Before(leases, order[i], order[j])
  }

  lemma {:induction false} FirstExists(leases: Leases, s: set<LeaseId>) returns (first: LeaseId)
    requires s != {} && s <= leases.Keys
    ensures first in s && forall x :: x in s && x != first ==> Before(leases, first, x)
    decreases |s|
  {
    var x :| x in s;
    if s == {x} {
      first := x;
    } else {
      var y := FirstExists(leases, s - {x});
      first := if Before(leases, x, y) then x else y;
      forall z | z in s && z != first
        ensures Before(leases, first, z)
      {
        assert z != x && z != y ==> z in s - {x} && Before(leases, y, z);
      }
    }
  }

  method Order(leases: Leases, s: set<LeaseId>) returns (order: seq<LeaseId>)
    requires s <= leases.Keys
    ensures Ordered(leases, order) && Elements(order) == s
  {
    order := [];
    var todo := s;
    while todo != {}
      invariant todo <= s && Elements(order) == s - todo && Ordered(leases, order)
      invariant forall a, b :: a in order && b in todo ==> Before(leases, a, b)
    {
      ghost var least := FirstExists(leases, todo);
      var first :| first in todo && forall x :: x in todo && x != first ==> Before(leases, first, x);
      assert Elements(order + [first]) == Elements(order) + {first};
      assert forall i :: 0 <= i < |order| ==> order[i] in order;
      order := order + [first];
      todo := todo - {first};
    }
  }

  datatype Plan = AlreadyFeasible | Planned(victims: seq<LeaseId>) | NotFeasible

  ghost predicate NonePrefixFeasible(k: Kernel, select: Selector, r: Request, order: seq<LeaseId>, n: nat)
    requires n <= |order|
  {
    forall i :: 0 <= i < n ==> !Feasible(k, select, r, Elements(order[..i]))
  }

  /** What a plan promises. */
  ghost predicate PlanHolds(k: Kernel, select: Selector, r: Request, plan: Plan) {
    match plan
    case AlreadyFeasible => Feasible(k, select, r, {})
    case Planned(victims) =>
      && Ordered(k.leases, victims) && Elements(victims) <= Eligible(k, r)
      && Feasible(k, select, r, Elements(victims))
      && NonePrefixFeasible(k, select, r, victims, |victims|)
      && (forall v, x :: v in victims && x in Eligible(k, r) && x !in victims ==> Before(k.leases, v, x))
    case NotFeasible => !Feasible(k, select, r, {}) && !Feasible(k, select, r, Eligible(k, r))
  }

  lemma NothingEvicted(k: Kernel)
    ensures Evicted(k.leases, {}) == {} && Without(k, {}) == SceneOf(k)
  {
  }

  lemma AcyclicTree(leases: Leases)
    requires LeaseTree(leases)
    ensures Acyclic(LeaseParents(leases))
  {
  }

  lemma EvictedIs(leases: Leases, victims: seq<LeaseId>, all: set<LeaseId>)
    requires all == Elements(victims) + set l, v | v in victims && l in leases && Below(leases, l, v) :: l
    ensures all == Evicted(leases, Elements(victims))
  {
    hide Below;
  }

  /** The projection of one prefix of the candidates. */
  method Project(cluster: Cluster, victims: seq<LeaseId>) returns (scene: Scene)
    requires cluster.Valid()
    ensures scene == Without(cluster.State(), Elements(victims))
  {
    hide Inv, LeaseTree, OccupancyExcept, PlacementBlocked, Below, Evicted;
    var k := cluster.State();
    TreeOf(k);
    assert Acyclic(LeaseParents(k.leases)) by { AcyclicTree(k.leases); }
    var except := Elements(victims);
    for i := 0 to |victims|
      invariant except == Elements(victims) + set l, v | v in victims[..i] && l in k.leases
                && Below(k.leases, l, v) :: l
    {
      var below := DescendantsPostorder(k.leases, victims[i]);
      assert Elements(below) == BelowSet(k.leases, victims[i]);
      assert victims[..i + 1] == victims[..i] + [victims[i]];
      except := except + Elements(below);
    }
    assert victims[..|victims|] == victims;
    EvictedIs(k.leases, victims, except);
    var used := cluster.OccupancyExceptLeases(except);
    scene := Scene(k.graph, used, PlacementBlocked(k));
  }

  /** Evicts lower-priority root leases one by one, cheapest first, until the request
      fits: the victims suffice, no shorter prefix does, and giving up means that even
      evicting every eligible lease would not do. */
  method PreemptionPlan(cluster: Cluster, select: Selector, r: Request) returns (plan: Plan)
    requires cluster.Valid()
    ensures PlanHolds(cluster.State(), select, r, plan)
  {
    hide Inv, Evicted, OccupancyExcept, Eligible;
    var k := cluster.State();
    NothingEvicted(k);
    assert Elements<LeaseId>([]) == {};
    var scene := Project(cluster, []);
    if select(scene, r).Some? {
      return AlreadyFeasible;
    }
    EligibleKnown(k, r);
    var order := Order(k.leases, Eligible(k, r));
    for i := 0 to |order|
      invariant NonePrefixFeasible(k, select, r, order, i)
      invariant !Feasible(k, select, r, Elements(order[..i]))
    {
      scene := Project(cluster, order[..i + 1]);
      if select(scene, r).Some? {
        PrefixPlan(k, select, r, order, i + 1);
        return Planned(order[..i + 1]);
      }
    }
    assert order[..|order|] == order;
    return NotFeasible;
  }

  lemma EligibleKnown(k: Kernel, r: Request)
    ensures Eligible(k, r) <= k.leases.Keys
  {
  }

  lemma PrefixPlan(k: Kernel, select: Selector, r: Request, order: seq<LeaseId>, n: nat)
    requires 0 < n <= |order| && Ordered(k.leases, order) && Elements(order) == Eligible(k, r)
    requires NonePrefixFeasible(k, select, r, order, n) && Feasible(k, select, r, Elements(order[..n]))
    ensures PlanHolds(k, select, r, Planned(order[..n]))
  {
    hide Feasible, Eligible;
    var victims := order[..n];
    forall i | 0 <= i < n
      ensures !Feasible(k, select, r, Elements(victims[..i]))
    {
      assert victims[..i] == order[..i];
    }
    assert forall j :: 0 <= j < n ==> order[j] in victims;
    forall v, x | v in victims && x in Eligible(k, r) && x !in victims
      ensures Before(k.leases, v, x)
    {
      assert x in Elements(order);
      var i :| 0 <= i < |victims| && victims[i] == v;
      var j :| 0 <= j < |order| && order[j] == x;
      assert order[i] == v;
    }
    forall v | v in Elements(victims)
      ensures v in Eligible(k, r)
    {
      assert v in Elements(order);
    }
  }

  /* ---------- carrying the plan out ---------- */

  ghost function RevokeAll(k: Kernel, victims: seq<LeaseId>): Kernel {
    if victims == [] then k
    else
      var before := RevokeAll(k, victims[..|victims| - 1]);
      var o := Revoke(before, victims[|victims| - 1]);
      if o.Accepted? then o.k else before
  }

  /** The fence acknowledgement the binding's machine gives in its current session. */
  ghost function FenceAck(k: Kernel, b: BindingId): Outcome {
    if b in k.bindings && SessionOf(k, k.bindings[b].node).Some?
    then ClosedAck(k, b, SessionOf(k, k.bindings[b].node).value, k.bindings[b].fence, BFenced) else Rejected
  }

  ghost function FenceAll(k: Kernel, bs: seq<BindingId>): Kernel {
    if bs == [] then k
    else
      var before := FenceAll(k, bs[..|bs| - 1]);
      var o := FenceAck(before, bs[|bs| - 1]);
      if o.Accepted? then o.k else before
  }

  /** `k'` is `k` after leases in `gone` ended and only their bindings moved on. */
  ghost predicate Ending(k: Kernel, k': Kernel, gone: set<LeaseId>) {
    && k' == k.(leases := k'.leases, bindings := k'.bindings)
    && SameShape(k.leases, k'.leases)
    && (forall l :: l in k.leases && l !in gone ==> k'.leases[l] == k.leases[l])
    && k'.bindings.Keys == k.bindings.Keys
    && (forall b :: b in k.bindings ==> Later(k.bindings[b], k'.bindings[b]))
    && (forall b :: b in k.bindings && k.bindings[b].lease !in gone ==> k'.bindings[b] == k.bindings[b])
  }

  lemma EndingTransitive(a: Kernel, b: Kernel, c: Kernel, gone: set<LeaseId>)
    requires Ending(a, b, gone) && Ending(b, c, gone)
    ensures Ending(a, c, gone)
  {
  }

  lemma RevokeEnded(k: Kernel, v: LeaseId)
    requires LeaseTree(k.leases) && v in k.leases
    ensures Revoke(k, v).Accepted? && Ended(k.leases, Revoke(k, v).k.leases, v) && !Live(Revoke(k, v).k.leases[v].state)
  {
    hide LeaseTree, Ended, Below;
    CascadeEndsBelow(k.leases, v, Revoked, SETTLED);
    CascadeEnds(k.leases, v, Revoked, SETTLED, k.leases[v].(state := Revoked));
    hide CascadeLeases, BelowFences, EffectsOf;
  }

  lemma RevokeEnds(k: Kernel, v: LeaseId, gone: set<LeaseId>)
    requires LeaseTree(k.leases) && v in k.leases
    requires v in gone && forall l :: l in k.leases && Below(k.leases, l, v) ==> l in gone
    ensures Revoke(k, v).Accepted? && Ending(k, Revoke(k, v).k, gone)
    ensures forall l :: l in k.leases && (l == v || Below(k.leases, l, v)) ==> !Live(Revoke(k, v).k.leases[l].state)
  {
    hide LeaseTree, Revoke, Below, Live;
    RevokeEnded(k, v);
    RevokeOnly(k, v);
    EndedIsEnding(k, Revoke(k, v).k, v, gone);
  }

  /** Only lease states changed, and only at `v` and below it. */
  lemma EndedIsEnding(k: Kernel, k': Kernel, v: LeaseId, gone: set<LeaseId>)
    requires k' == k.(leases := k'.leases) && Ended(k.leases, k'.leases, v) && v in gone
    requires forall l :: l in k.leases && Below(k.leases, l, v) ==> l in gone
    requires forall l :: l in k.leases && l != v && !Below(k.leases, l, v) ==> k'.leases[l] == k.leases[l]
    ensures Ending(k, k', gone)
    ensures forall l :: l in k.leases && Below(k.leases, l, v) ==> !Live(k'.leases[l].state)
  {
    hide Below, Live;
  }

  lemma RevokeOnly(k: Kernel, v: LeaseId)
    requires v in k.leases
    ensures var leases' := Revoke(k, v).k.leases;
            leases'.Keys == k.leases.Keys
            && forall l :: l in k.leases && l != v && !Below(k.leases, l, v) ==> leases'[l] == k.leases[l]
  {
    CascadeDomain(k.leases, v, Revoked, SETTLED);
    hide Below;
  }

  lemma BelowStays(k: Kernel, k': Kernel, gone: set<LeaseId>)
    requires Ending(k, k', gone)
    ensures forall l, v :: Below(k'.leases, l, v) == Below(k.leases, l, v)
  {
    ShapeKeepsTree(k.leases, k'.leases);
  }

  lemma {:induction false} RevokeAllEnds(k: Kernel, victims: seq<LeaseId>, all: set<LeaseId>)
    requires Inv(k) && Elements(victims) <= all <= k.leases.Keys
    ensures var k' := RevokeAll(k, victims);
            && Inv(k') && Ending(k, k', Evicted(k.leases, all))
            && forall l :: l in Evicted(k.leases, Elements(victims)) ==> !Live(k'.leases[l].state)
  {
    if victims == [] {
      hide Inv, Below;
    } else {
      var prefix, v := victims[..|victims| - 1], victims[|victims| - 1];
      assert victims == prefix + [v];
      assert Elements(victims) == Elements(prefix) + {v} && v in Elements(victims);
      RevokeAllEnds(k, prefix, all);
      RevokeNext(k, RevokeAll(k, prefix), Elements(prefix), v, all);
    }
  }

  lemma RevokeNext(k: Kernel, before: Kernel, done: set<LeaseId>, v: LeaseId, all: set<LeaseId>)
    requires Inv(before) && Ending(k, before, Evicted(k.leases, all)) && v in all && all <= k.leases.Keys
    requires forall l :: l in Evicted(k.leases, done) ==> l in before.leases && !Live(before.leases[l].state)
    ensures Revoke(before, v).Accepted?
    ensures var k' := Revoke(before, v).k;
            && Inv(k') && Ending(k, k', Evicted(k.leases, all))
            && forall l :: l in Evicted(k.leases, done + {v}) ==> l in k'.leases && !Live(k'.leases[l].state)
  {
    hide Inv, LeaseTree, Ending, Evicted, Below, Revoke, Live;
    var gone := Evicted(k.leases, all);
    TreeOf(before);
    EndingKeys(k, before, gone);
    BelowStays(k, before, gone);
    EvictedHolds(k.leases, all, v);
    RevokeEnds(before, v, gone);
    RevokeKeeps(before, v);
    var k' := Revoke(before, v).k;
    EndingKeys(before, k', gone);
    EndingTransitive(k, before, k', gone);
    EvictedAdd(k.leases, done, v);
    EndedStaysEnded(before, v);
  }

  lemma TreeOf(k: Kernel)
    requires Inv(k)
    ensures LeaseTree(k.leases)
  {
  }

  lemma EndingKeys(k: Kernel, k': Kernel, gone: set<LeaseId>)
    requires Ending(k, k', gone)
    ensures k'.leases.Keys == k.leases.Keys
  {
  }

  lemma EvictedHolds(leases: Leases, all: set<LeaseId>, v: LeaseId)
    requires v in all
    ensures v in Evicted(leases, all) && forall l :: l in leases && Below(leases, l, v) ==> l in Evicted(leases, all)
  {
  }

  lemma EvictedAdd(leases: Leases, victims: set<LeaseId>, v: LeaseId)
    ensures forall l :: l in Evicted(leases, victims + {v}) <==>
              l in Evicted(leases, victims) || l == v || (l in leases && Below(leases, l, v))
  {
  }

  lemma EndedStaysEnded(k: Kernel, v: LeaseId)
    requires Inv(k) && Revoke(k, v).Accepted?
    ensures forall l :: l in k.leases && !Live(k.leases[l].state) ==>
              l in Revoke(k, v).k.leases && !Live(Revoke(k, v).k.leases[l].state)
  {
    RevokeStable(k, v);
    hide Inv, Revoke;
    var k' := Revoke(k, v).k;
    forall l | l in k.leases && !Live(k.leases[l].state)
      ensures l in k'.leases && !Live(k'.leases[l].state)
    {
      assert LeaseLater(k.leases[l], k'.leases[l]);
    }
  }

  lemma FenceEnds(k: Kernel, b: BindingId, gone: set<LeaseId>)
    requires Inv(k) && b in k.bindings && k.bindings[b].lease in gone && SessionOf(k, k.bindings[b].node).Some?
    ensures FenceAck(k, b).Accepted? && Inv(FenceAck(k, b).k) && Ending(k, FenceAck(k, b).k, gone)
    ensures FenceAck(k, b).k == SetBinding(k, b, FenceAck(k, b).k.bindings[b])
    ensures FenceAck(k, b).k.bindings[b].state.BFenced?
  {
    hide Inv, SessionOf;
    ClosedAckKeeps(k, b, SessionOf(k, k.bindings[b].node).value, k.bindings[b].fence, BFenced);
  }

  lemma {:induction false} FenceAllEnds(k: Kernel, bs: seq<BindingId>, gone: set<LeaseId>)
    requires Inv(k)
    requires forall b :: b in bs ==>
               b in k.bindings && k.bindings[b].lease in gone && SessionOf(k, k.bindings[b].node).Some?
    ensures var k' := FenceAll(k, bs);
            && Inv(k') && Ending(k, k', gone) && k'.leases == k.leases
            && (forall b :: b in bs ==> Closed(k'.bindings[b].state))
            && (forall b :: b in k.bindings && Closed(k.bindings[b].state) ==> Closed(k'.bindings[b].state))
  {
    hide Inv, SessionOf, FenceAck;
    if bs != [] {
      var prefix, b := bs[..|bs| - 1], bs[|bs| - 1];
      assert bs == prefix + [b];
      FenceAllEnds(k, prefix, gone);
      FenceNext(k, FenceAll(k, prefix), b, gone);
    }
  }

  lemma EndingAt(k: Kernel, k': Kernel, b: BindingId, gone: set<LeaseId>)
    requires Ending(k, k', gone) && b in k.bindings
    ensures b in k'.bindings && Later(k.bindings[b], k'.bindings[b])
    ensures SessionOf(k', k.bindings[b].node) == SessionOf(k, k.bindings[b].node)
  {
  }

  lemma FenceNext(k: Kernel, before: Kernel, b: BindingId, gone: set<LeaseId>)
    requires Inv(before) && Ending(k, before, gone) && before.leases == k.leases && b in k.bindings
             && k.bindings[b].lease in gone
    requires SessionOf(k, k.bindings[b].node).Some?
    ensures FenceAck(before, b).Accepted?
    ensures var k' := FenceAck(before, b).k;
            && Inv(k') && Ending(k, k', gone) && k'.leases == k.leases
            && b in k'.bindings && Closed(k'.bindings[b].state)
            && forall c :: c in before.bindings && Closed(before.bindings[c].state) ==>
                c in k'.bindings && Closed(k'.bindings[c].state)
  {
    hide Inv, SessionOf, Ending, FenceAck;
    EndingAt(k, before, b, gone);
    FenceEnds(before, b, gone);
    EndingTransitive(k, before, FenceAck(before, b).k, gone);
  }

  lemma SameClaimsSameUse(leases: Leases, leases': Leases, ids: set<LeaseId>)
    requires SameShape(leases, leases')
    ensures UsedBy(leases, ids) == UsedBy(leases', ids)
  {
    ShapeKeepsUsage(leases, leases');
    assert forall l :: NodesOf(leases, l) == NodesOf(leases', l);
    assert forall l, n :: DimsOf(leases, l, n) == DimsOf(leases', l, n);
    assert UsedNodes(leases, ids) == UsedNodes(leases', ids);
    hide NodesOf, DimsOf, Usage, UsedNodes;
    forall n
      ensures UsageOn(leases, ids, n) == UsageOn(leases', ids, n)
    {
      assert UsedDims(leases, ids, n) == UsedDims(leases', ids, n);
      hide UsedDims;
    }
    hide UsageOn;
  }

  /** Once the evicted leases ended and their bindings closed, they occupy nothing and
      everything else occupies what it did. */
  lemma GoneIsProjected(k: Kernel, k': Kernel, gone: set<LeaseId>)
    requires Ending(k, k', gone)
    requires forall l :: l in k.leases && l in gone ==> !Live(k'.leases[l].state)
    requires forall b :: b in k'.bindings && k'.bindings[b].lease in gone ==> Closed(k'.bindings[b].state)
    ensures OccupancyExcept(k', {}) == OccupancyExcept(k, gone) && PlacementBlocked(k') == PlacementBlocked(k)
  {
    GoneOccupies(k, k', gone);
    ShapeKeepsTree(k.leases, k'.leases);
    var occ := Occ(k'.leases, k'.bindings);
    hide Ending, Occ, OccupyingExcept, UsedBy;
    SameClaimsSameUse(k.leases, k'.leases, Roots(k.leases, occ));
  }

  lemma GoneOccupies(k: Kernel, k': Kernel, gone: set<LeaseId>)
    requires Ending(k, k', gone)
    requires forall l :: l in k.leases && l in gone ==> !Live(k'.leases[l].state)
    requires forall b :: b in k'.bindings && k'.bindings[b].lease in gone ==> Closed(k'.bindings[b].state)
    ensures Occ(k'.leases, k'.bindings) == OccupyingExcept(k.leases, k.bindings, gone)
    ensures PlacementBlocked(k') == PlacementBlocked(k)
  {
  }

  /** The open bindings of the victims and of everything delegated from them. */
  ghost predicate OpenBindingsOf(k: Kernel, victims: set<LeaseId>, bs: seq<BindingId>) {
    forall b :: b in bs <==>
      b in k.bindings && !Closed(k.bindings[b].state) && k.bindings[b].lease in Evicted(k.leases, victims)
  }

  /** Revoking leases in order and acknowledging a fence for every open binding of theirs
      leaves exactly the scene projected without them. */
  lemma RevokedIsProjected(k: Kernel, victims: seq<LeaseId>, bs: seq<BindingId>)
    requires Inv(k) && Elements(victims) <= k.leases.Keys && OpenBindingsOf(k, Elements(victims), bs)
    ensures var k' := FenceAll(RevokeAll(k, victims), bs);
            Inv(k') && SceneOf(k') == Without(k, Elements(victims)) && k'.agreed == k.agreed
  {
    var all := Elements(victims);
    var gone, k1 := Evicted(k.leases, all), RevokeAll(k, victims);
    OpenHaveSessions(k);
    hide Inv, Below;
    RevokeAllEnds(k, victims, all);
    AfterEnding(k, k1, bs, gone);
    hide Ending, Evicted;
  }

  /** Carrying out a plan works: the request is selectable once the victims are revoked and
      fenced; and every victim had a strictly lower priority. */
  lemma PlanWorks(k: Kernel, select: Selector, r: Request, victims: seq<LeaseId>, bs: seq<BindingId>)
    requires Inv(k) && PlanHolds(k, select, r, Planned(victims)) && OpenBindingsOf(k, Elements(victims), bs)
    ensures var k' := FenceAll(RevokeAll(k, victims), bs);
            && Inv(k') && SceneOf(k') == Without(k, Elements(victims)) && select(SceneOf(k'), r).Some?
    ensures forall v :: v in victims ==> v in k.leases && k.leases[v].priority < r.priority
  {
    EligibleKnown(k, r);
    assert forall v :: v in victims ==> v in Elements(victims);
    hide Inv;
    RevokedIsProjected(k, victims, bs);
  }

  /** Placement returns the claims of solutions, as `Select.SelectPlacement` does. */
  ghost predicate Solves(select: Selector) {
    forall s, r :: select(s, r).Some? ==>
      exists picked :: Solution(s, s.graph.nodes.Keys, r, picked) && Flatten(picked) == select(s, r).value
  }

  /** End to end: what placement finds in the planned scene, the kernel opens as a root lease
      once the victims are revoked and fenced. */
  lemma PlanOpens(k: Kernel, select: Selector, r: Request, victims: seq<LeaseId>, bs: seq<BindingId>, c: Command)
    requires Inv(k) && k.agreed && Solves(select) && PlanHolds(k, select, r, Planned(victims))
    requires OpenBindingsOf(k, Elements(victims), bs)
    requires RootOpening(FenceAll(RevokeAll(k, victims), bs), c, select(Without(k, Elements(victims)), r).value)
    ensures var k' := FenceAll(RevokeAll(k, victims), bs);
            Open(k', c).Accepted? && Open(k', c).k.leases[c.lease].claims == c.claims
  {
    EligibleKnown(k, r);
    hide Inv, Open;
    RevokedIsProjected(k, victims, bs);
    var scene, k' := Without(k, Elements(victims)), FenceAll(RevokeAll(k, victims), bs);
    hide Without, FenceAll, RevokeAll, Eligible;
    assert scene.graph == k'.graph;
    var picked :| Solution(scene, scene.graph.nodes.Keys, r, picked) && Flatten(picked) == select(scene, r).value;
    SolutionOpens(k', r, picked, c);
  }

  lemma OpenHaveSessions(k: Kernel)
    requires Inv(k)
    ensures Reachable(k)
  {
  }

  lemma AfterEnding(k: Kernel, k1: Kernel, bs: seq<BindingId>, gone: set<LeaseId>)
    requires Reachable(k) && Inv(k1) && Ending(k, k1, gone)
    requires forall l :: l in gone ==> l in k1.leases && !Live(k1.leases[l].state)
    requires forall b :: b in bs <==> b in k.bindings && !Closed(k.bindings[b].state) && k.bindings[b].lease in gone
    ensures var k' := FenceAll(k1, bs);
            Inv(k') && SceneOf(k') == Scene(k.graph, OccupancyExcept(k, gone), PlacementBlocked(k))
              && k'.agreed == k.agreed
  {
    forall b | b in bs
      ensures b in k1.bindings && k1.bindings[b].lease in gone && SessionOf(k1, k1.bindings[b].node).Some?
    {
      assert Later(k.bindings[b], k1.bindings[b]);
      assert SessionOf(k1, k.bindings[b].node) == SessionOf(k, k.bindings[b].node);
    }
    hide Inv, SessionOf, Reachable;
    FenceAllEnds(k1, bs, gone);
    var k' := FenceAll(k1, bs);
    hide FenceAll;
    EndingTransitive(k, k1, k', gone);
    forall b | b in k'.bindings && k'.bindings[b].lease in gone
      ensures Closed(k'.bindings[b].state)
    {
      assert Later(k.bindings[b], k1.bindings[b]) && Later(k.bindings[b], k'.bindings[b]);
    }
    GoneIsProjected(k, k', gone);
    hide OccupancyExcept, PlacementBlocked;
  }
}
