/** What every command keeps: the reachable-state invariant of the authority kernel. */
module Authority {
  import opened Forest
  import opened Quantities
  import opened ResourceGraph
  import opened Facts
  import opened Occupancy
  import opened Kernel

  /* ---------- the invariant ---------- */

  /** Delegation is a tree over known leases, and only leases that were active delegate. */
  ghost predicate LeaseTree(leases: Leases) {
    && Acyclic(LeaseParents(leases))
    && forall l :: l in leases && leases[l].parent.Some? ==>
         var p := leases[l].parent.value;
         p in leases && !leases[p].state.Reserved? && !leases[p].state.Preparing?
  }

  ghost predicate ClaimsSound(g: Graph, leases: Leases) {
    forall l :: l in leases ==>
      && UniqueNodes(leases[l].claims)
      && forall i :: 0 <= i < |leases[l].claims| ==>
           leases[l].claims[i].node in g.nodes && leases[l].claims[i].quantity != map[]
  }

  /** Bindings enforce undelegated leases, on nodes those leases claim. */
  ghost predicate BindingsSound(leases: Leases, bindings: Bindings) {
    forall b :: b in bindings ==>
      var x := bindings[b];
      && x.fence >= 1
      && x.lease in leases && leases[x.lease].parent.None? && !leases[x.lease].state.Reserved?
      && ClaimsNode(leases[x.lease].claims, x.node)
  }

  /** The occupying children of a lease never add up to more than its claims. */
  ghost predicate Shares(leases: Leases, occ: set<LeaseId>) {
    forall p, n, d :: p in leases ==> Usage(leases, Kids(leases, occ, p), n, d) <= Amount(leases[p].claims, n, d)
  }

  /** Only an undelegated lease can stop occupying before its children do. */
  ghost predicate Chained(leases: Leases, occ: set<LeaseId>) {
    forall l :: l in occ && l in leases && leases[l].parent.Some? ==>
      var p := leases[l].parent.value;
      p in occ || (p in leases && leases[p].parent.None?)
  }

  /** On every node and dimension the charged leases fit the capacity. */
  ghost predicate Bounded(g: Graph, leases: Leases, occ: set<LeaseId>) {
    forall n, d :: Usage(leases, Roots(leases, occ), n, d) <= Get(CapacityOf(g, n), d)
  }

  ghost predicate Accounted(g: Graph, leases: Leases, occ: set<LeaseId>) {
    Shares(leases, occ) && Chained(leases, occ) && Bounded(g, leases, occ)
  }

  /** The machine behind every open binding has a session. */
  ghost predicate Reachable(k: Kernel) {
    forall b :: b in k.bindings && !Closed(k.bindings[b].state) ==> SessionOf(k, k.bindings[b].node).Some?
  }

  ghost predicate FencesSound(bindings: Bindings, lastFence: map<(ProviderId, NodeId), nat>) {
    && (forall b :: b in bindings && bindings[b].scope == Exclusive ==>
          bindings[b].fence <= Watermark(lastFence, bindings[b].provider, bindings[b].node))
    && (forall a, b :: a in bindings && b in bindings && a != b && SameEndpoint(bindings[a], bindings[b]) ==>
          && (bindings[a].scope == Exclusive && bindings[b].scope == Exclusive ==>
              bindings[a].fence != bindings[b].fence)
          && (!Closed(bindings[a].state) && !Closed(bindings[b].state) ==>
                bindings[a].scope != Exclusive && bindings[b].scope != Exclusive))
  }

  predicate SameEndpoint(x: Binding, y: Binding) {
    x.provider == y.provider && x.node == y.node
  }

  /** Some binding of `l` on `n` had its prepare acknowledged. */
  ghost predicate Acked(bindings: Bindings, l: LeaseId, n: NodeId) {
    exists b :: b in bindings && bindings[b].lease == l && bindings[b].node == n && bindings[b].handle.Some?
  }

  ghost predicate FullyPrepared(leases: Leases, bindings: Bindings, l: LeaseId) {
    l in leases && forall i :: 0 <= i < |leases[l].claims| ==> Acked(bindings, l, leases[l].claims[i].node)
  }

  /** No undelegated lease and no binding is active before every claim is prepared. */
  ghost predicate TwoPhase(leases: Leases, bindings: Bindings) {
    && (forall l :: l in leases && leases[l].parent.None? && leases[l].state == Active ==>
        FullyPrepared(leases, bindings, l))
    && (forall b :: b in bindings && bindings[b].state.BActive? ==> FullyPrepared(leases, bindings, bindings[b].lease))
  }

  ghost predicate Inv(k: Kernel) {
    && WellFormed(k.graph)
    && LeaseTree(k.leases)
    && ClaimsSound(k.graph, k.leases)
    && BindingsSound(k.leases, k.bindings)
    && Accounted(k.graph, k.leases, Occ(k.leases, k.bindings))
    && Reachable(k)
    && FencesSound(k.bindings, k.lastFence)
    && TwoPhase(k.leases, k.bindings)
  }

  lemma InitialInv()
    ensures Inv(Initial())
  {
  }

  /* ---------- accounting: two ways occupancy changes ---------- */

  ghost predicate SameShape(leases: Leases, leases': Leases) {
    && leases.Keys == leases'.Keys
    && forall l :: l in leases ==> leases'[l].parent == leases[l].parent && leases'[l].claims == leases[l].claims
  }

  lemma ShapeKeepsTree(leases: Leases, leases': Leases)
    requires SameShape(leases, leases')
    ensures LeaseParents(leases) == LeaseParents(leases')
    ensures forall occ, p :: Kids(leases, occ, p) == Kids(leases', occ, p)
    ensures forall occ :: Roots(leases, occ) == Roots(leases', occ)
  {
  }

  lemma ShapeKeepsUsage(leases: Leases, leases': Leases)
    requires SameShape(leases, leases')
    ensures forall ids, n, d :: Usage(leases, ids, n, d) == Usage(leases', ids, n, d)
  {
    forall ids: set<LeaseId>, n: NodeId, d: Dimension
      ensures Usage(leases, ids, n, d) == Usage(leases', ids, n, d)
    {
      UsageSame(leases, leases', ids, n, d);
    }
  }

  lemma ShapeKeepsAccounts(g: Graph, leases: Leases, leases': Leases, occ: set<LeaseId>)
    requires SameShape(leases, leases') && Accounted(g, leases, occ)
    ensures Accounted(g, leases', occ)
  {
    ShapeKeepsTree(leases, leases');
    ShapeKeepsUsage(leases, leases');
  }

  /** Leases stop occupying. Apart from `r`, none that stops leaves an occupying child
      behind; `r` may, but only if nothing is above it. */
  ghost predicate StopsCleanly(leases: Leases, occ: set<LeaseId>, occ': set<LeaseId>, r: LeaseId) {
    && occ' <= occ <= leases.Keys
    && (forall l :: l in occ && l !in occ' && l != r ==> Kids(leases, occ', l) == {})
    && (r in occ && r !in occ' ==> leases[r].parent.None? || Kids(leases, occ', r) == {})
  }

  lemma KidsShrink(leases: Leases, occ: set<LeaseId>, occ': set<LeaseId>, p: LeaseId)
    requires occ' <= occ
    ensures Kids(leases, occ', p) <= Kids(leases, occ, p)
  {
  }

  /** When `r` stops, its children take its place among the charged leases. */
  lemma RootsAfterStop(leases: Leases, occ: set<LeaseId>, occ': set<LeaseId>, r: LeaseId)
    requires StopsCleanly(leases, occ, occ', r) && r in occ && r !in occ' && leases[r].parent.None?
    ensures r in Roots(leases, occ)
    ensures Roots(leases, occ') <= (Roots(leases, occ) - {r}) + Kids(leases, occ, r)
  {
    forall l | l in Roots(leases, occ') && l !in Roots(leases, occ)
      ensures l in Kids(leases, occ, r)
    {
      var p := leases[l].parent.value;
      assert p in occ && p !in occ';
      assert l in Kids(leases, occ', p);
    }
  }

  lemma RootsWithoutStop(leases: Leases, occ: set<LeaseId>, occ': set<LeaseId>, r: LeaseId)
    requires StopsCleanly(leases, occ, occ', r)
    requires !(r in occ && r !in occ' && leases[r].parent.None?)
    ensures Roots(leases, occ') <= Roots(leases, occ)
  {
    forall l | l in Roots(leases, occ') && leases[l].parent.Some?
      ensures leases[l].parent.value !in occ
    {
      var p := leases[l].parent.value;
      assert p in occ && p !in occ' ==> l in Kids(leases, occ', p);
    }
  }

  lemma ShrinkKeepsAccounts(g: Graph, leases: Leases, occ: set<LeaseId>, occ': set<LeaseId>, r: LeaseId)
    requires Accounted(g, leases, occ) && StopsCleanly(leases, occ, occ', r)
    ensures Accounted(g, leases, occ')
  {
    forall p, n, d | p in leases
      ensures Usage(leases, Kids(leases, occ', p), n, d) <= Amount(leases[p].claims, n, d)
    {
      KidsShrink(leases, occ, occ', p);
      UsageMonotone(leases, Kids(leases, occ', p), Kids(leases, occ, p), n, d);
    }
    forall l | l in occ' && l in leases && leases[l].parent.Some?
      ensures var p := leases[l].parent.value;
              p in occ' || (p in leases && leases[p].parent.None?)
    {
      assert l in Kids(leases, occ', leases[l].parent.value);
    }
    var R, R' := Roots(leases, occ), Roots(leases, occ');
    forall n, d
      ensures Usage(leases, R', n, d) <= Get(CapacityOf(g, n), d)
    {
      if r in occ && r !in occ' && leases[r].parent.None? {
        var kids := Kids(leases, occ, r);
        RootsAfterStop(leases, occ, occ', r);
        UsageMonotone(leases, R', (R - {r}) + kids, n, d);
        UsageUnion(leases, R - {r}, kids, n, d);
        UsageRemove(leases, R, r, n, d);
      } else {
        RootsWithoutStop(leases, occ, occ', r);
        UsageMonotone(leases, R', R, n, d);
      }
    }
  }

  /** What the sums become once `id` is a lease. */
  lemma NewUsage(leases: Leases, id: LeaseId, x: Lease, ids: set<LeaseId>, n: NodeId, d: Dimension)
    requires id !in ids
    ensures Usage(leases[id := x], ids, n, d) == Usage(leases, ids, n, d)
    ensures Usage(leases[id := x], ids + {id}, n, d) == Amount(x.claims, n, d) + Usage(leases, ids, n, d)
  {
    UsageSame(leases, leases[id := x], ids, n, d);
    UsageAdd(leases[id := x], ids, id, n, d);
  }

  ghost predicate FitsBesideRoots(g: Graph, leases: Leases, occ: set<LeaseId>, claims: seq<Claim>) {
    forall n, d :: Amount(claims, n, d) + Usage(leases, Roots(leases, occ), n, d) <= Get(CapacityOf(g, n), d)
  }

  ghost predicate FitsBesideKids(leases: Leases, occ: set<LeaseId>, p: LeaseId, claims: seq<Claim>) {
    p in leases &&
    forall n, d :: Amount(claims, n, d) + Usage(leases, Kids(leases, occ, p), n, d) <= Amount(leases[p].claims, n, d)
  }

  /** A fresh lease starts to occupy. */
  lemma GrowKeepsAccounts(g: Graph, leases: Leases, occ: set<LeaseId>, id: LeaseId, x: Lease)
    requires LeaseTree(leases) && Accounted(g, leases, occ) && occ <= leases.Keys && id !in leases
    requires x.parent.Some? ==> x.parent.value in occ && FitsBesideKids(leases, occ, x.parent.value, x.claims)
    requires x.parent.None? ==> FitsBesideRoots(g, leases, occ, x.claims)
    ensures Accounted(g, leases[id := x], occ + {id})
  {
    GrowKeepsShares(leases, occ, id, x);
    GrowKeepsBounds(g, leases, occ, id, x);
    hide LeaseTree, Shares, Bounded;
  }

  lemma GrowKeepsShares(leases: Leases, occ: set<LeaseId>, id: LeaseId, x: Lease)
    requires LeaseTree(leases) && Shares(leases, occ) && occ <= leases.Keys && id !in leases
    requires x.parent.Some? ==> x.parent.value in occ && FitsBesideKids(leases, occ, x.parent.value, x.claims)
    ensures Shares(leases[id := x], occ + {id})
  {
    var leases', occ' := leases[id := x], occ + {id};
    forall p, n, d | p in leases'
      ensures Usage(leases', Kids(leases', occ', p), n, d) <= Amount(leases'[p].claims, n, d)
    {
      hide LeaseTree;
      NewKids(leases, occ, id, x, p);
      NewUsage(leases, id, x, Kids(leases, occ, p), n, d);
    }
  }

  lemma GrowKeepsBounds(g: Graph, leases: Leases, occ: set<LeaseId>, id: LeaseId, x: Lease)
    requires LeaseTree(leases) && Bounded(g, leases, occ) && occ <= leases.Keys && id !in leases
    requires x.parent.Some? ==> x.parent.value in occ
    requires x.parent.None? ==> FitsBesideRoots(g, leases, occ, x.claims)
    ensures Bounded(g, leases[id := x], occ + {id})
  {
    NewRoots(leases, occ, id, x);
    hide LeaseTree;
    forall n, d
      ensures Usage(leases[id := x], Roots(leases[id := x], occ + {id}), n, d) <= Get(CapacityOf(g, n), d)
    {
      NewUsage(leases, id, x, Roots(leases, occ), n, d);
    }
  }

  lemma NewKids(leases: Leases, occ: set<LeaseId>, id: LeaseId, x: Lease, p: LeaseId)
    requires LeaseTree(leases) && occ <= leases.Keys && id !in leases && (x.parent.Some? ==> x.parent.value in occ)
    ensures Kids(leases[id := x], occ + {id}, p) ==
            if p == id then {} else if x.parent == Some(p) then Kids(leases, occ, p) + {id} else Kids(leases, occ, p)
    ensures id !in Kids(leases, occ, p)
  {
  }

  lemma NewRoots(leases: Leases, occ: set<LeaseId>, id: LeaseId, x: Lease)
    requires LeaseTree(leases) && occ <= leases.Keys && id !in leases && (x.parent.Some? ==> x.parent.value in occ)
    ensures Roots(leases[id := x], occ + {id}) ==
            if x.parent.None? then Roots(leases, occ) + {id} else Roots(leases, occ)
    ensures id !in Roots(leases, occ)
  {
  }

  /* ---------- transitions that end leases ---------- */

  /** `leases'` is `leases` after authority below `id`, and maybe at `id`, ended. */
  ghost predicate Ended(leases: Leases, leases': Leases, id: LeaseId) {
    && SameShape(leases, leases')
    && (forall l :: l in leases ==> leases'[l].state == leases[l].state || !Live(leases'[l].state))
    && (forall l :: l in leases && l != id && !Below(leases, l, id) ==> leases'[l].state == leases[l].state)
    && (forall l :: l in leases && Below(leases, l, id) ==> !Live(leases'[l].state))
  }

  lemma KidsAreBelow(leases: Leases, occ: set<LeaseId>, p: LeaseId, id: LeaseId)
    requires LeaseTree(leases) && (p == id || Below(leases, p, id))
    ensures forall c :: c in Kids(leases, occ, p) ==> Below(leases, c, id)
  {
  }

  lemma EndedStopsCleanly(leases: Leases, leases': Leases, bindings: Bindings, id: LeaseId)
    requires LeaseTree(leases) && BindingsSound(leases, bindings) && Ended(leases, leases', id)
    ensures StopsCleanly(leases, Occ(leases, bindings), Occ(leases', bindings), id)
  {
  }

  /** A change of lease states that keeps the accounts keeps the invariant, if no state
      goes back and nothing becomes active unprepared. */
  lemma LeaseStatesKeep(k: Kernel, leases': Leases)
    requires Inv(k) && SameShape(k.leases, leases')
    requires Accounted(k.graph, leases', Occ(leases', k.bindings))
    requires forall l :: l in k.leases && leases'[l].state.Reserved? ==> k.leases[l].state.Reserved?
    requires forall l :: l in k.leases && leases'[l].state.Preparing? ==>
               k.leases[l].state.Reserved? || k.leases[l].state.Preparing?
    requires forall l :: l in k.leases && leases'[l].state.Active? && leases'[l].parent.None? ==>
               k.leases[l].state.Active? || FullyPrepared(k.leases, k.bindings, l)
    ensures Inv(k.(leases := leases'))
  {
    ShapeKeepsTree(k.leases, leases');
    assert LeaseTree(leases');
    assert ClaimsSound(k.graph, leases') by { ShapeKeepsClaims(k.graph, k.leases, leases'); }
    assert BindingsSound(leases', k.bindings) by { ShapeKeepsBindings(k.leases, leases', k.bindings); }
    ShapeKeepsPhases(k, leases');
    SessionsUnchanged(k, k.(leases := leases'));
    hide WellFormed, LeaseTree, ClaimsSound, BindingsSound, Accounted, Reachable, FencesSound, TwoPhase;
  }

  lemma ShapeKeepsClaims(g: Graph, leases: Leases, leases': Leases)
    requires SameShape(leases, leases') && ClaimsSound(g, leases)
    ensures ClaimsSound(g, leases')
  {
  }

  lemma ShapeKeepsBindings(leases: Leases, leases': Leases, bindings: Bindings)
    requires SameShape(leases, leases') && BindingsSound(leases, bindings)
    requires forall l :: l in leases && leases'[l].state.Reserved? ==> leases[l].state.Reserved?
    ensures BindingsSound(leases', bindings)
  {
  }

  lemma EndedKeeps(k: Kernel, leases': Leases, id: LeaseId)
    requires Inv(k) && Ended(k.leases, leases', id)
    ensures Inv(k.(leases := leases'))
  {
    EndedStopsCleanly(k.leases, leases', k.bindings, id);
    hide WellFormed, LeaseTree, ClaimsSound, BindingsSound, Accounted, Reachable, FencesSound, TwoPhase;
    var occ' := Occ(leases', k.bindings);
    ShrinkKeepsAccounts(k.graph, k.leases, Occ(k.leases, k.bindings), occ', id);
    ShapeKeepsAccounts(k.graph, k.leases, leases', occ');
    LeaseStatesKeep(k, leases');
  }

  lemma ShapeKeepsPhases(k: Kernel, leases': Leases)
    requires TwoPhase(k.leases, k.bindings) && SameShape(k.leases, leases')
    requires forall l :: l in leases' && leases'[l].parent.None? && leases'[l].state == Active ==>
               k.leases[l].state == Active || FullyPrepared(k.leases, k.bindings, l)
    ensures TwoPhase(leases', k.bindings)
  {
  }

  lemma SessionsUnchanged(k: Kernel, k': Kernel)
    requires Reachable(k) && k'.graph == k.graph && k'.sessions == k.sessions && k'.bindings == k.bindings
    ensures Reachable(k')
  {
  }

  lemma BelowStep(leases: Leases, l: LeaseId, a: LeaseId)
    requires Acyclic(LeaseParents(leases))
    ensures Below(leases, l, a) <==>
            l in leases && leases[l].parent.Some?
              && (leases[l].parent.value == a || Below(leases, leases[l].parent.value, a))
  {
  }

  lemma BelowTransitive(leases: Leases, x: LeaseId, y: LeaseId, z: LeaseId)
    requires Below(leases, x, y) && Below(leases, y, z)
    ensures Below(leases, x, z)
  {
    UnderTransitive(LeaseParents(leases), x, y, z);
  }

  /** Two leases above one lease are above one another. */
  lemma {:induction false} LineageIsLine(leases: Leases, l: LeaseId, r: LeaseId, s: LeaseId)
    requires Acyclic(LeaseParents(leases)) && r != s
    requires (r == l || Below(leases, l, r)) && (s == l || Below(leases, l, s))
    ensures Below(leases, r, s) || Below(leases, s, r)
    decreases RankAt(RankOf(LeaseParents(leases)), l)
  {
    if r != l && s != l {
      BelowStep(leases, l, r);
      BelowStep(leases, l, s);
      LineageIsLine(leases, leases[l].parent.value, r, s);
    }
  }

  lemma NotBelowItself(leases: Leases, id: LeaseId)
    ensures !Below(leases, id, id)
  {
    if Acyclic(LeaseParents(leases)) {
      NotUnderItself(LeaseParents(leases), id);
    }
  }

  lemma CascadeDomain(leases: Leases, id: LeaseId, s: LeaseState, kept: set<LeaseState>)
    ensures CascadeLeases(leases, id, s, kept).Keys == leases.Keys
  {
  }

  lemma CascadeAt(leases: Leases, id: LeaseId, s: LeaseState, kept: set<LeaseState>, l: LeaseId)
    requires l in leases && !Live(s) && forall t :: t in kept ==> !Live(t)
    ensures l in CascadeLeases(leases, id, s, kept)
    ensures var y := CascadeLeases(leases, id, s, kept)[l];
            && y.parent == leases[l].parent && y.claims == leases[l].claims
            && (if Below(leases, l, id) then !Live(y.state) else y == leases[l])
  {
  }

  lemma CascadeEnds(leases: Leases, id: LeaseId, s: LeaseState, kept: set<LeaseState>, x: Lease)
    requires LeaseTree(leases) && id in leases && !Live(s) && forall t :: t in kept ==> !Live(t)
    requires x.parent == leases[id].parent && x.claims == leases[id].claims
    requires x.state == leases[id].state || !Live(x.state)
    ensures Ended(leases, CascadeLeases(leases, id, s, kept)[id := x], id)
    ensures id in CascadeLeases(leases, id, s, kept) && CascadeLeases(leases, id, s, kept)[id] == leases[id]
  {
    hide LeaseTree, Below, CascadeLeases;
    NotBelowItself(leases, id);
    CascadeDomain(leases, id, s, kept);
    var down := CascadeLeases(leases, id, s, kept);
    forall l | l in leases
      ensures down[l].parent == leases[l].parent && down[l].claims == leases[l].claims
      ensures if Below(leases, l, id) then !Live(down[l].state) else down[l] == leases[l]
    {
      CascadeAt(leases, id, s, kept, l);
    }
  }

  /** The same, when the lease itself keeps the state it already ended in. */
  lemma CascadeEndsBelow(leases: Leases, id: LeaseId, s: LeaseState, kept: set<LeaseState>)
    requires LeaseTree(leases) && id in leases && !Live(s) && forall t :: t in kept ==> !Live(t)
    ensures Ended(leases, CascadeLeases(leases, id, s, kept), id)
  {
  }

  lemma FailKeeps(k: Kernel, id: LeaseId)
    requires Inv(k) && Fail(k, id).Accepted?
    ensures Inv(Fail(k, id).k)
  {
    hide WellFormed, LeaseTree, ClaimsSound, BindingsSound, Accounted, Reachable, FencesSound, TwoPhase;
    hide Ended;
    CascadeEndsBelow(k.leases, id, Failed, SETTLED);
    CascadeEnds(k.leases, id, Failed, SETTLED, k.leases[id].(state := Failed));
    EndedKeeps(k, Fail(k, id).k.leases, id);
  }

  lemma RevokeKeeps(k: Kernel, id: LeaseId)
    requires Inv(k) && Revoke(k, id).Accepted?
    ensures Inv(Revoke(k, id).k)
  {
    hide WellFormed, LeaseTree, ClaimsSound, BindingsSound, Accounted, Reachable, FencesSound, TwoPhase;
    hide Ended;
    CascadeEndsBelow(k.leases, id, Revoked, SETTLED);
    CascadeEnds(k.leases, id, Revoked, SETTLED, k.leases[id].(state := Revoked));
    EndedKeeps(k, Revoke(k, id).k.leases, id);
  }

  lemma ExpireKeeps(k: Kernel, id: LeaseId)
    requires Inv(k) && Expire(k, id).Accepted?
    ensures Inv(Expire(k, id).k)
  {
    hide WellFormed, LeaseTree, ClaimsSound, BindingsSound, Accounted, Reachable, FencesSound, TwoPhase;
    hide Ended;
    if k.leases[id].state != Expired {
      CascadeEnds(k.leases, id, Expired, SETTLED, k.leases[id].(state := Expired));
      EndedKeeps(k, Expire(k, id).k.leases, id);
    }
  }

  lemma CompleteKeeps(k: Kernel, id: LeaseId, code: int)
    requires Inv(k) && Complete(k, id, code).Accepted?
    ensures Inv(Complete(k, id, code).k)
  {
    hide WellFormed, LeaseTree, ClaimsSound, BindingsSound, Accounted, Reachable, FencesSound, TwoPhase;
    hide Ended;
    if k.leases[id].state != Completed && k.leases[id].state != Failed {
      var final := if code == 0 then Completed else Failed;
      CascadeEnds(k.leases, id, final, SETTLED + {Completed}, k.leases[id].(state := final, exitCode := Some(code)));
      EndedKeeps(k, Complete(k, id, code).k.leases, id);
    }
  }

  /** Ending one lease alone is sound when nothing is above it or nothing occupies below it. */
  lemma EndOneKeeps(k: Kernel, id: LeaseId, s: LeaseState)
    requires Inv(k) && id in k.leases && !Live(s)
    requires k.leases[id].parent.None? || Kids(k.leases, Occ(k.leases, k.bindings), id) == {}
    ensures Inv(SetState(k, id, s))
  {
    hide WellFormed, LeaseTree, ClaimsSound, BindingsSound, Accounted, Reachable, FencesSound, TwoPhase;
    var leases' := SetState(k, id, s).leases;
    var occ, occ' := Occ(k.leases, k.bindings), Occ(leases', k.bindings);
    assert occ - {id} <= occ' <= occ;
    KidsShrink(k.leases, occ, occ', id);
    assert StopsCleanly(k.leases, occ, occ', id);
    ShrinkKeepsAccounts(k.graph, k.leases, occ, occ', id);
    ShapeKeepsAccounts(k.graph, k.leases, leases', occ');
    LeaseStatesKeep(k, leases');
  }

  lemma ReleaseLeaseKeeps(k: Kernel, id: LeaseId)
    requires Inv(k) && ReleaseLeaseStep(k, id).Accepted?
    ensures Inv(ReleaseLeaseStep(k, id).k)
  {
    if k.leases[id].state != Released {
      KidsAreBelow(k.leases, Occ(k.leases, k.bindings), id, id);
      assert forall c :: c in Kids(k.leases, Occ(k.leases, k.bindings), id) ==> HasLiveBelow(k, id);
      EndOneKeeps(k, id, Released);
    }
  }

  /* ---------- transitions of one binding ---------- */

  /** `y` is `x` later on: same place, same fence, never reopened, handle kept. */
  ghost predicate Later(x: Binding, y: Binding) {
    && y.lease == x.lease && y.node == x.node && y.provider == x.provider && y.scope == x.scope && y.fence == x.fence
    && (Closed(x.state) ==> Closed(y.state))
    && (x.handle.Some? ==> y.handle.Some?)
  }

  lemma BindingKeeps(k: Kernel, b: BindingId, y: Binding)
    requires Inv(k) && b in k.bindings && Later(k.bindings[b], y)
    requires y.state.BActive? ==> k.bindings[b].state.BActive? || FullyPrepared(k.leases, k.bindings, y.lease)
    ensures Inv(SetBinding(k, b, y))
  {
    hide WellFormed, LeaseTree, ClaimsSound, BindingsSound, Accounted, Reachable, FencesSound, TwoPhase;
    BindingKeepsAccounts(k, b, y);
    LaterKeepsBindings(k, b, y);
    LaterKeepsPhases(k.leases, k.bindings, k.bindings[b := y]);
  }

  lemma LaterKeepsBindings(k: Kernel, b: BindingId, y: Binding)
    requires BindingsSound(k.leases, k.bindings) && FencesSound(k.bindings, k.lastFence) && Reachable(k)
    requires b in k.bindings && Later(k.bindings[b], y)
    ensures BindingsSound(k.leases, k.bindings[b := y]) && FencesSound(k.bindings[b := y], k.lastFence)
    ensures Reachable(SetBinding(k, b, y))
  {
    assert BindingsSound(k.leases, k.bindings[b := y]) by { hide FencesSound, Reachable; }
    assert Reachable(SetBinding(k, b, y)) by {
      hide BindingsSound, FencesSound;
      assert forall n :: SessionOf(SetBinding(k, b, y), n) == SessionOf(k, n);
    }
    assert FencesSound(k.bindings[b := y], k.lastFence) by {
      hide BindingsSound, Reachable;
      LaterKeepsFences(k.bindings, k.lastFence, b, y);
    }
  }

  lemma LaterKeepsFences(bindings: Bindings, lastFence: map<(ProviderId, NodeId), nat>, b: BindingId, y: Binding)
    requires FencesSound(bindings, lastFence) && b in bindings && Later(bindings[b], y)
    ensures FencesSound(bindings[b := y], lastFence)
  {
  }

  lemma BindingKeepsAccounts(k: Kernel, b: BindingId, y: Binding)
    requires BindingsSound(k.leases, k.bindings) && Accounted(k.graph, k.leases, Occ(k.leases, k.bindings))
    requires b in k.bindings && Later(k.bindings[b], y)
    ensures Accounted(k.graph, k.leases, Occ(k.leases, k.bindings[b := y]))
  {
    hide Accounted;
    var bindings' := k.bindings[b := y];
    var occ, occ' := Occ(k.leases, k.bindings), Occ(k.leases, bindings');
    var r := y.lease;
    forall l | l in OpenLeases(bindings')
      ensures l in OpenLeases(k.bindings)
    {
      var c :| c in bindings' && !Closed(bindings'[c].state) && bindings'[c].lease == l;
      assert k.bindings[c].lease == l && !Closed(k.bindings[c].state);
    }
    forall l | l in OpenLeases(k.bindings) && l != r
      ensures l in OpenLeases(bindings')
    {
      var c :| c in k.bindings && !Closed(k.bindings[c].state) && k.bindings[c].lease == l;
      assert bindings'[c] == k.bindings[c];
    }
    assert StopsCleanly(k.leases, occ, occ', r);
    ShrinkKeepsAccounts(k.graph, k.leases, occ, occ', r);
  }

  lemma LaterKeepsPhases(leases: Leases, bindings: Bindings, bindings': Bindings)
    requires TwoPhase(leases, bindings) && bindings.Keys <= bindings'.Keys
    requires forall b :: b in bindings ==> Later(bindings[b], bindings'[b])
    requires forall b :: b in bindings' && bindings'[b].state.BActive? ==>
               (b in bindings && bindings[b].state.BActive?) || FullyPrepared(leases, bindings, bindings'[b].lease)
    ensures TwoPhase(leases, bindings')
  {
  }

  lemma RootBinding(leases: Leases, bindings: Bindings, b: BindingId)
    requires BindingsSound(leases, bindings) && b in bindings
    ensures bindings[b].lease in leases && leases[bindings[b].lease].parent.None?
  {
  }

  lemma FailedAckKeeps(k: Kernel, b: BindingId, session: nat, fence: nat)
    requires Inv(k) && FailedAck(k, b, session, fence).Accepted?
    ensures Inv(FailedAck(k, b, session, fence).k)
  {
    hide WellFormed, LeaseTree, ClaimsSound, BindingsSound, Accounted, Reachable, FencesSound, TwoPhase;
    hide SessionOf, EffectsOf;
    var x := k.bindings[b];
    RootBinding(k.leases, k.bindings, b);
    var y := x.(session := session, state := if Closed(x.state) then x.state else BFailed);
    BindingKeeps(k, b, y);
    if k.leases[x.lease].state !in SETTLED {
      EndOneKeeps(SetBinding(k, b, y), x.lease, Failed);
    }
  }

  /** A new binding takes the next fence of its endpoint and changes no accounts. */
  lemma BindKeeps(k: Kernel, c: Command)
    requires c.OpenBinding? && Inv(k) && Bind(k, c).Accepted?
    ensures Inv(Bind(k, c).k)
  {
    hide WellFormed, LeaseTree, ClaimsSound, BindingsSound, Accounted, Reachable, FencesSound, TwoPhase;
    if c.binding !in k.bindings {
      var k' := Bind(k, c).k;
      var x := k'.bindings[c.binding];
      NewBindingOpens(k.bindings, c.binding, x);
      assert Occ(k'.leases, k'.bindings) == Occ(k.leases, k.bindings);
      LaterKeepsPhases(k.leases, k.bindings, k'.bindings);
      NewBindingSound(k, c);
      NewFence(k, c);
    }
  }

  lemma NewBindingSound(k: Kernel, c: Command)
    requires c.OpenBinding? && BindingsSound(k.leases, k.bindings) && Reachable(k)
    requires Bind(k, c).Accepted? && c.binding !in k.bindings
    ensures BindingsSound(k.leases, Bind(k, c).k.bindings) && Reachable(Bind(k, c).k)
  {
    FoundClaim(k.leases[c.lease].claims, c.node);
    assert forall n :: SessionOf(Bind(k, c).k, n) == SessionOf(k, n);
  }

  lemma NewBindingOpens(bindings: Bindings, b: BindingId, x: Binding)
    requires b !in bindings && !Closed(x.state)
    ensures OpenLeases(bindings[b := x]) == OpenLeases(bindings) + {x.lease}
  {
    var bindings' := bindings[b := x];
    forall l | l in OpenLeases(bindings)
      ensures l in OpenLeases(bindings')
    {
      var c :| c in bindings && !Closed(bindings[c].state) && bindings[c].lease == l;
      assert bindings'[c] == bindings[c];
    }
    assert bindings'[b].lease == x.lease;
  }

  lemma {:induction false} FoundClaim(claims: seq<Claim>, n: NodeId)
    ensures FindClaim(claims, n).Some? <==> ClaimsNode(claims, n)
    ensures FindClaim(claims, n).Some? ==> FindClaim(claims, n).value in claims && FindClaim(claims, n).value.node == n
  {
    if claims != [] && claims[0].node != n {
      FoundClaim(claims[1..], n);
      if ClaimsNode(claims, n) {
        var i :| 0 <= i < |claims| && claims[i].node == n;
        assert claims[1..][i - 1].node == n;
      }
      if ClaimsNode(claims[1..], n) {
        var i :| 0 <= i < |claims[1..]| && claims[1..][i].node == n;
        assert claims[i + 1].node == n;
      }
    }
  }

  /** The fence of a new exclusive binding exceeds every exclusive fence ever given at
      its endpoint, and no open binding shares the endpoint with an exclusive one. */
  lemma NewFence(k: Kernel, c: Command)
    requires c.OpenBinding? && BindingsSound(k.leases, k.bindings) && FencesSound(k.bindings, k.lastFence)
    requires Bind(k, c).Accepted? && c.binding !in k.bindings
    ensures FencesSound(Bind(k, c).k.bindings, Bind(k, c).k.lastFence)
    ensures c.scope == Exclusive ==>
              forall b :: b in k.bindings && k.bindings[b].scope == Exclusive
                          && SameEndpoint(k.bindings[b], Bind(k, c).k.bindings[c.binding]) ==>
                k.bindings[b].fence < Bind(k, c).k.bindings[c.binding].fence
  {
    hide SessionOf, EffectFor, NodeQuarantined, ContractFor, FindClaim, ClaimsNode, BindingsSound;
  }

  /* ---------- transitions of the facts ---------- */

  lemma SameFactsKeep(k: Kernel, g: Graph)
    requires Inv(k) && SameTopology(k.graph, g)
    ensures Inv(k.(graph := g))
  {
    hide WellFormed, LeaseTree, ClaimsSound, BindingsSound, Accounted, Reachable, FencesSound, TwoPhase;
    SameTopologyKeeps(k.graph, g);
    SameFactsReach(k, g);
    SameFactsAccounts(k, g);
  }

  lemma SameFactsAccounts(k: Kernel, g: Graph)
    requires SameTopology(k.graph, g) && ClaimsSound(k.graph, k.leases)
    requires Accounted(k.graph, k.leases, Occ(k.leases, k.bindings))
    ensures ClaimsSound(g, k.leases) && Accounted(g, k.leases, Occ(k.leases, k.bindings))
  {
  }

  lemma SameFactsReach(k: Kernel, g: Graph)
    requires Reachable(k) && SameTopology(k.graph, g)
    ensures Reachable(k.(graph := g))
  {
    forall n
      ensures SessionOf(k.(graph := g), n) == SessionOf(k, n)
    {
      FirstOfClassSame(k.graph, g, [n] + Ancestors(g.parent, n), MACHINE);
    }
  }

  lemma {:induction false} FirstOfClassSame(g: Graph, h: Graph, chain: seq<NodeId>, kind: ResourceClass)
    requires g.nodes == h.nodes
    ensures FirstOfClass(g, chain, kind) == FirstOfClass(h, chain, kind)
  {
    if chain != [] {
      FirstOfClassSame(g, h, chain[1..], kind);
    }
  }

  /** Replacing the graph keeps every account, and keeps the machine of every claimed
      node, so every open binding still has a session to answer it. */
  lemma InstallKeeps(k: Kernel, staged: Option<Graph>)
    requires Inv(k) && Updates(k.graph, staged) && Install(k, staged).Accepted?
    ensures Inv(Install(k, staged).k)
  {
    hide WellFormed, LeaseTree, ClaimsSound, BindingsSound, Shares, Chained, Bounded, Reachable, FencesSound, TwoPhase;
    hide CapacityHolds, KeepsMachines, OccupancyExcept;
    InstallKeepsBounds(k, staged.value);
    InstallKeepsClaims(k.graph, staged.value, k.leases);
    InstallKeepsReachable(k, staged.value);
  }

  lemma InstallKeepsClaims(g: Graph, staged: Graph, leases: Leases)
    requires ClaimsSound(g, leases) && g.nodes.Keys <= staged.nodes.Keys
    ensures ClaimsSound(staged, leases)
  {
  }

  lemma InstallKeepsReachable(k: Kernel, staged: Graph)
    requires BindingsSound(k.leases, k.bindings) && Reachable(k) && KeepsMachines(k, staged)
    ensures Reachable(k.(graph := staged))
  {
    forall b | b in k.bindings && !Closed(k.bindings[b].state)
      ensures SessionOf(k.(graph := staged), k.bindings[b].node) == SessionOf(k, k.bindings[b].node)
    {
      OpenBindingPinned(k, staged, b);
    }
  }

  lemma OpenBindingPinned(k: Kernel, staged: Graph, b: BindingId)
    requires BindingsSound(k.leases, k.bindings) && KeepsMachines(k, staged)
    requires b in k.bindings && !Closed(k.bindings[b].state)
    ensures MachineOf(k.graph, k.bindings[b].node) == MachineOf(staged, k.bindings[b].node)
  {
  }

  lemma InstallKeepsBounds(k: Kernel, staged: Graph)
    requires Inv(k) && CapacityHolds(staged, OccupancyExcept(k, {}))
    ensures Bounded(staged, k.leases, Occ(k.leases, k.bindings))
  {
    var roots := Roots(k.leases, Occ(k.leases, k.bindings));
    var used := UsedBy(k.leases, roots);
    forall n, d
      ensures Usage(k.leases, roots, n, d) <= Get(CapacityOf(staged, n), d)
    {
      UsedReads(k.leases, roots, n, d);
      if n in used && d in used[n] {
        assert Le(used[n], staged.nodes[n].capacity);
      }
    }
  }

  lemma ApplyGraphKeeps(k: Kernel, nodes: seq<Node>, edges: seq<Edge>)
    requires Inv(k) && Install(k, ApplyUnowned(k.graph, nodes, edges)).Accepted?
    ensures Inv(Install(k, ApplyUnowned(k.graph, nodes, edges)).k)
  {
    assert WellFormed(k.graph);
    hide Inv, WellFormed, ApplyUnowned;
    ApplyUnownedKeeps(k.graph, nodes, edges);
    InstallKeeps(k, ApplyUnowned(k.graph, nodes, edges));
  }

  lemma ResourceFactsKeep(k: Kernel, nodes: seq<Node>, edges: seq<Edge>, updates: seq<ClaimBindingUpdate>)
    requires Inv(k) && Install(k, ApplyResourceFacts(k.graph, nodes, edges, updates)).Accepted?
    ensures Inv(Install(k, ApplyResourceFacts(k.graph, nodes, edges, updates)).k)
  {
    assert WellFormed(k.graph);
    hide Inv, WellFormed, ApplyResourceFacts;
    ApplyResourceFactsKeeps(k.graph, nodes, edges, updates);
    InstallKeeps(k, ApplyResourceFacts(k.graph, nodes, edges, updates));
  }

  lemma ProviderFactsKeep(k: Kernel, batches: seq<FactBatch>, updates: seq<ClaimBindingUpdate>)
    requires Inv(k) && Install(k, ApplyProviderFacts(k.graph, batches, updates)).Accepted?
    ensures Inv(Install(k, ApplyProviderFacts(k.graph, batches, updates)).k)
  {
    assert WellFormed(k.graph);
    hide Inv, WellFormed, ApplyProviderFacts;
    ApplyProviderFactsKeeps(k.graph, batches, updates);
    InstallKeeps(k, ApplyProviderFacts(k.graph, batches, updates));
  }

  lemma AdoptKeeps(k: Kernel, assignments: seq<WriterAssignment>)
    requires Inv(k) && Adopt(k, assignments).Accepted?
    ensures Inv(Adopt(k, assignments).k)
  {
    hide Inv;
    AdoptedKeeps(k.graph, assignments);
    SameFactsKeep(k, Adopted(k.graph, assignments));
  }

  /* ---------- transitions that start leases ---------- */

  lemma ResolveKeeps(k: Kernel, claims: seq<Claim>)
    requires UniqueNodes(claims) && AllResolvable(k.graph, claims)
    ensures UniqueNodes(Resolve(k.graph, claims))
    ensures forall i :: 0 <= i < |claims| ==>
              Resolve(k.graph, claims)[i].node in k.graph.nodes && Resolve(k.graph, claims)[i].quantity != map[]
  {
  }

  lemma ContractNeedsDemand(g: Graph, n: NodeId, q: Quantity)
    requires ContractFor(g, n, q).Some?
    ensures exists d :: d in q && q[d] > 0
  {
  }

  /** Committed claims name their quantities, so resolving them again changes nothing. */
  lemma ResolveIsStable(g: Graph, claims: seq<Claim>)
    requires forall i :: 0 <= i < |claims| ==> claims[i].quantity != map[]
    ensures Resolve(g, claims) == claims
  {
  }

  lemma CoversAllFits(g: Graph, leases: Leases, roots: set<LeaseId>, claims: seq<Claim>)
    requires UniqueNodes(claims) && CoversAll(g, UsedBy(leases, roots), claims)
    requires forall n, d :: Usage(leases, roots, n, d) <= Get(CapacityOf(g, n), d)
    ensures forall n, d :: Amount(claims, n, d) + Usage(leases, roots, n, d) <= Get(CapacityOf(g, n), d)
  {
    forall n, d
      ensures Amount(claims, n, d) + Usage(leases, roots, n, d) <= Get(CapacityOf(g, n), d)
    {
      if ClaimsNode(claims, n) {
        var i :| 0 <= i < |claims| && claims[i].node == n;
        AmountOfClaim(claims, i, d);
        assert CanCover(g, UsedBy(leases, roots), claims[i]);
        FitsInRemaining(claims[i].quantity, g.nodes[n].capacity, UsedOn(UsedBy(leases, roots), n));
        UsedReads(leases, roots, n, d);
      } else {
        AmountOffClaims(claims, n, d);
      }
    }
  }

  lemma SiblingsFit(leases: Leases, kids: set<LeaseId>, parent: seq<Claim>, claims: seq<Claim>)
    requires UniqueNodes(claims) && UniqueNodes(parent) && FitsBesideSiblings(parent, UsedBy(leases, kids), claims)
    requires forall n, d :: Usage(leases, kids, n, d) <= Amount(parent, n, d)
    ensures forall n, d :: Amount(claims, n, d) + Usage(leases, kids, n, d) <= Amount(parent, n, d)
  {
    forall n, d
      ensures Amount(claims, n, d) + Usage(leases, kids, n, d) <= Amount(parent, n, d)
    {
      if ClaimsNode(claims, n) {
        var i :| 0 <= i < |claims| && claims[i].node == n;
        AmountOfClaim(claims, i, d);
        FoundClaim(parent, n);
        var p := FindClaim(parent, n).value;
        var j :| 0 <= j < |parent| && parent[j] == p;
        AmountOfClaim(parent, j, d);
        UsedReads(leases, kids, n, d);
        assert ClaimFits(p.quantity, UsedOn(UsedBy(leases, kids), n), claims[i].quantity);
      } else {
        AmountOffClaims(claims, n, d);
      }
    }
  }

  /** A fresh live lease whose claims fit keeps the invariant. */
  lemma NewLeaseKeeps(k: Kernel, id: LeaseId, x: Lease)
    requires Inv(k) && id !in k.leases && (x.state.Reserved? || x.state.Preparing?)
    requires UniqueNodes(x.claims)
    requires forall i :: 0 <= i < |x.claims| ==> x.claims[i].node in k.graph.nodes && x.claims[i].quantity != map[]
    requires x.parent.None? ==> CoversAll(k.graph, OccupancyExcept(k, {id}), x.claims)
    requires x.parent.Some? ==> FitsParent(k, id, x.parent.value, x.claims)
    ensures Inv(k.(leases := k.leases[id := x]))
  {
    NewLeaseFits(k, id, x);
    NewLeaseKeepsBindings(k, id, x);
    hide WellFormed, LeaseTree, ClaimsSound, BindingsSound, Accounted, Reachable, FencesSound, TwoPhase;
    hide FitsBesideRoots, FitsBesideKids;
    var occ := Occ(k.leases, k.bindings);
    GrowKeepsAccounts(k.graph, k.leases, occ, id, x);
    NewLeaseKeepsTree(k.leases, id, x);
    SessionsUnchanged(k, k.(leases := k.leases[id := x]));
  }

  lemma NewLeaseFits(k: Kernel, id: LeaseId, x: Lease)
    requires Inv(k) && id !in k.leases && UniqueNodes(x.claims)
    requires x.parent.None? ==> CoversAll(k.graph, OccupancyExcept(k, {id}), x.claims)
    requires x.parent.Some? ==> FitsParent(k, id, x.parent.value, x.claims)
    ensures x.parent.None? ==> FitsBesideRoots(k.graph, k.leases, Occ(k.leases, k.bindings), x.claims)
    ensures x.parent.Some? ==> x.parent.value in Occ(k.leases, k.bindings)
                               && FitsBesideKids(k.leases, Occ(k.leases, k.bindings), x.parent.value, x.claims)
  {
    var occ := Occ(k.leases, k.bindings);
    assert OccupyingExcept(k.leases, k.bindings, {id}) == occ;
    assert x.parent.Some? ==> UniqueNodes(k.leases[x.parent.value].claims);
    hide WellFormed, LeaseTree, ClaimsSound, BindingsSound, Reachable, FencesSound, TwoPhase;
    if x.parent.None? {
      CoversAllFits(k.graph, k.leases, Roots(k.leases, occ), x.claims);
    } else {
      SiblingsFit(k.leases, Kids(k.leases, occ, x.parent.value), k.leases[x.parent.value].claims, x.claims);
    }
  }

  lemma NewLeaseKeepsBindings(k: Kernel, id: LeaseId, x: Lease)
    requires BindingsSound(k.leases, k.bindings) && TwoPhase(k.leases, k.bindings) && ClaimsSound(k.graph, k.leases)
    requires id !in k.leases && (x.state.Reserved? || x.state.Preparing?) && UniqueNodes(x.claims)
    requires forall i :: 0 <= i < |x.claims| ==> x.claims[i].node in k.graph.nodes && x.claims[i].quantity != map[]
    ensures BindingsSound(k.leases[id := x], k.bindings) && TwoPhase(k.leases[id := x], k.bindings)
    ensures ClaimsSound(k.graph, k.leases[id := x])
    ensures Occ(k.leases[id := x], k.bindings) == Occ(k.leases, k.bindings) + {id}
  {
    assert id !in OpenLeases(k.bindings);
    assert forall l :: FullyPrepared(k.leases, k.bindings, l) && l != id ==>
             FullyPrepared(k.leases[id := x], k.bindings, l);
  }

  lemma NewLeaseKeepsTree(leases: Leases, id: LeaseId, x: Lease)
    requires LeaseTree(leases) && id !in leases
    requires x.parent.Some? ==> x.parent.value in leases && leases[x.parent.value].state == Active
    ensures LeaseTree(leases[id := x])
  {
    var parents := LeaseParents(leases);
    if x.parent.Some? {
      AddLeaf(parents, id, x.parent.value);
      assert LeaseParents(leases[id := x]) == parents[id := x.parent.value];
    } else {
      assert LeaseParents(leases[id := x]) == parents;
    }
  }

  lemma ReserveKeeps(k: Kernel, c: Command)
    requires c.ReserveLease? && Inv(k) && Reserve(k, c).Accepted?
    ensures Inv(Reserve(k, c).k)
  {
    if c.lease !in k.leases {
      ResolveKeeps(k, c.claims);
      NewLeaseKeeps(k, c.lease, Reserve(k, c).k.leases[c.lease]);
    }
  }

  lemma OpenKeeps(k: Kernel, c: Command)
    requires c.OpenLease? && Inv(k) && Open(k, c).Accepted?
    ensures Inv(Open(k, c).k)
  {
    if c.lease !in k.leases {
      ResolveKeeps(k, c.claims);
      NewLeaseKeeps(k, c.lease, Open(k, c).k.leases[c.lease]);
    }
  }

  /** Moving a lease on towards activity changes no account. */
  lemma ForwardKeeps(k: Kernel, id: LeaseId, y: Lease)
    requires Inv(k) && id in k.leases
    requires y.parent == k.leases[id].parent && y.claims == k.leases[id].claims
    requires Live(k.leases[id].state) && Live(y.state) && !(y.state.Reserved? && !k.leases[id].state.Reserved?)
    requires y.state.Preparing? ==> !k.leases[id].state.Active?
    requires y.state.Active? && y.parent.None? ==> k.leases[id].state.Active? || FullyPrepared(k.leases, k.bindings, id)
    ensures Inv(k.(leases := k.leases[id := y]))
  {
    var leases' := k.leases[id := y];
    hide WellFormed, LeaseTree, ClaimsSound, BindingsSound, Accounted, Reachable, FencesSound, TwoPhase;
    assert Occ(leases', k.bindings) == Occ(k.leases, k.bindings);
    ShapeKeepsAccounts(k.graph, k.leases, leases', Occ(k.leases, k.bindings));
    LeaseStatesKeep(k, leases');
  }

  lemma PromoteKeeps(k: Kernel, id: LeaseId, deadline: nat)
    requires Inv(k) && Promote(k, id, deadline).Accepted?
    ensures Inv(Promote(k, id, deadline).k)
    ensures Promote(k, id, deadline).k.leases[id].claims == k.leases[id].claims
  {
    ResolveIsStable(k.graph, k.leases[id].claims);
    if k.leases[id].state == Reserved {
      ForwardKeeps(k, id, Promote(k, id, deadline).k.leases[id]);
    }
  }

  lemma ActivateLeaseKeeps(k: Kernel, id: LeaseId)
    requires Inv(k) && ActivateLeaseStep(k, id).Accepted?
    ensures Inv(ActivateLeaseStep(k, id).k)
  {
    if k.leases[id].state != Active {
      assert k.leases[id].parent.None? ==> FullyPrepared(k.leases, k.bindings, id) by {
        if k.leases[id].parent.None? {
          forall i | 0 <= i < |k.leases[id].claims|
            ensures Acked(k.bindings, id, k.leases[id].claims[i].node)
          {
            assert PreparedOn(k.bindings, id, k.leases[id].claims[i].node);
          }
        }
      }
      ForwardKeeps(k, id, k.leases[id].(state := Active));
    }
  }

  lemma AgentSessionKeeps(k: Kernel, m: NodeId, session: nat)
    requires Inv(k) && AgentSession(k, m, session).Accepted?
    ensures Inv(AgentSession(k, m, session).k)
  {
  }

  /* ---------- every command ---------- */

  lemma RenewKeeps(k: Kernel, id: LeaseId, at: nat)
    requires Inv(k) && Renew(k, id, at).Accepted?
    ensures Inv(Renew(k, id, at).k)
  {
    var leases' := Renew(k, id, at).k.leases;
    hide Inv;
    if at != k.leases[id].expiresAt {
      ForwardKeeps(k, id, leases'[id]);
    }
  }

  lemma ActivateBindingKeeps(k: Kernel, b: BindingId)
    requires Inv(k) && ActivateBindingStep(k, b).Accepted?
    ensures Inv(ActivateBindingStep(k, b).k)
  {
    var x := k.bindings[b];
    assert FullyPrepared(k.leases, k.bindings, x.lease);
    hide Inv;
    if x.state.BPreparing? {
      BindingKeeps(k, b, x.(state := BActive));
    }
  }

  /** One binding moved on without becoming active. */
  lemma UpdateKeeps(k: Kernel, b: BindingId, k': Kernel)
    requires Inv(k) && b in k.bindings
    requires k' == k || exists y :: k' == SetBinding(k, b, y) && Later(k.bindings[b], y)
                                    && (y.state.BActive? ==> k.bindings[b].state.BActive?)
    ensures Inv(k')
  {
    hide Inv;
    if k' != k {
      BindingKeeps(k, b, k'.bindings[b]);
    }
  }

  lemma FailBindingKeeps(k: Kernel, b: BindingId)
    requires Inv(k) && FailBindingStep(k, b).Accepted?
    ensures Inv(FailBindingStep(k, b).k)
  {
    hide Inv;
    UpdateKeeps(k, b, FailBindingStep(k, b).k);
  }

  lemma PreparedAckKeeps(k: Kernel, b: BindingId, session: nat, handle: nat, fence: nat)
    requires Inv(k) && PreparedAck(k, b, session, handle, fence).Accepted?
    ensures Inv(PreparedAck(k, b, session, handle, fence).k)
  {
    hide Inv;
    UpdateKeeps(k, b, PreparedAck(k, b, session, handle, fence).k);
  }

  lemma ActiveAckKeeps(k: Kernel, b: BindingId, session: nat, fence: nat)
    requires Inv(k) && ActiveAck(k, b, session, fence).Accepted?
    ensures Inv(ActiveAck(k, b, session, fence).k)
  {
    hide Inv;
    UpdateKeeps(k, b, ActiveAck(k, b, session, fence).k);
  }

  lemma ClosedAckKeeps(k: Kernel, b: BindingId, session: nat, fence: nat, s: BindingState)
    requires Inv(k) && Closed(s) && ClosedAck(k, b, session, fence, s).Accepted?
    ensures Inv(ClosedAck(k, b, session, fence, s).k)
  {
    hide Inv;
    UpdateKeeps(k, b, ClosedAck(k, b, session, fence, s).k);
  }

  lemma RebindKeeps(k: Kernel, b: BindingId, session: nat)
    requires Inv(k) && Rebind(k, b, session).Accepted?
    ensures Inv(Rebind(k, b, session).k)
  {
    hide Inv;
    UpdateKeeps(k, b, Rebind(k, b, session).k);
  }

  lemma ObserveKeeps(k: Kernel, n: NodeId, health: string)
    requires Inv(k) && Observe(k, n, health).Accepted?
    ensures Inv(Observe(k, n, health).k)
  {
    hide Inv;
    SameFactsKeep(k, Observe(k, n, health).k.graph);
  }

  lemma SetNodeKeeps(k: Kernel, n: NodeId, s: NodeState)
    requires Inv(k) && SetNode(k, n, s).Accepted?
    ensures Inv(SetNode(k, n, s).k)
  {
  }

  lemma AcknowledgementKeeps(k: Kernel, c: Command)
    requires Inv(k) && Step(k, c).Accepted?
    requires c.RecordPrepared? || c.RecordActive? || c.RecordReleased? || c.RecordFenced? || c.RecordFailed?
    ensures Inv(Step(k, c).k)
  {
    hide Inv, Install, ApplyUnowned, ApplyResourceFacts, ApplyProviderFacts, Adopt, Reserve, Promote, Open;
    hide ActivateLeaseStep, Fail, ReleaseLeaseStep, Complete, Revoke, Expire, Renew, Bind, ActivateBindingStep;
    hide FailBindingStep, PreparedAck, ActiveAck, ClosedAck, FailedAck, AgentSession, Observe, SetNode, Rebind;
    hide AdvanceFence;
    match c
    case RecordPrepared(b, session, handle, fence) => PreparedAckKeeps(k, b, session, handle, fence);
    case RecordActive(b, session, fence) => ActiveAckKeeps(k, b, session, fence);
    case RecordReleased(b, session, fence) => ClosedAckKeeps(k, b, session, fence, BReleased);
    case RecordFenced(b, session, fence) => ClosedAckKeeps(k, b, session, fence, BFenced);
    case RecordFailed(b, session, fence) => FailedAckKeeps(k, b, session, fence);
  }

  lemma EnforcementKeeps(k: Kernel, c: Command)
    requires Inv(k) && Step(k, c).Accepted?
    requires c.OpenBinding? || c.ActivateBinding? || c.FenceBinding? || c.FailBinding? || c.ReleaseBinding?
             || c.RebindSession?
    ensures Inv(Step(k, c).k)
  {
    hide Inv, Install, ApplyUnowned, ApplyResourceFacts, ApplyProviderFacts, Adopt, Reserve, Promote, Open;
    hide ActivateLeaseStep, Fail, ReleaseLeaseStep, Complete, Revoke, Expire, Renew, Bind, ActivateBindingStep;
    hide FailBindingStep, PreparedAck, ActiveAck, ClosedAck, FailedAck, AgentSession, Observe, SetNode, Rebind;
    hide AdvanceFence;
    match c
    case OpenBinding(_, _, _, _, _) => BindKeeps(k, c);
    case ActivateBinding(b) => ActivateBindingKeeps(k, b);
    case FenceBinding(b) =>
    case FailBinding(b) => FailBindingKeeps(k, b);
    case ReleaseBinding(b) =>
    case RebindSession(b, session) => RebindKeeps(k, b, session);
  }

  lemma MachineKeeps(k: Kernel, c: Command)
    requires Inv(k) && Step(k, c).Accepted?
    requires c.SetAgentSession? || c.SetNodeHealth? || c.SetNodeState? || c.AdvanceEndpointFence?
             || c.QuarantineNode? || c.UnquarantineNode?
    ensures Inv(Step(k, c).k)
  {
    hide Inv, Install, ApplyUnowned, ApplyResourceFacts, ApplyProviderFacts, Adopt, Reserve, Promote, Open;
    hide ActivateLeaseStep, Fail, ReleaseLeaseStep, Complete, Revoke, Expire, Renew, Bind, ActivateBindingStep;
    hide FailBindingStep, PreparedAck, ActiveAck, ClosedAck, FailedAck, AgentSession, Observe, SetNode, Rebind;
    hide AdvanceFence, Unquarantine;
    match c
    case SetAgentSession(m, session) => AgentSessionKeeps(k, m, session);
    case SetNodeHealth(n, health) => ObserveKeeps(k, n, health);
    case SetNodeState(n, s) => SetNodeKeeps(k, n, s);
    case AdvanceEndpointFence(n, p, fence) => AdvanceFenceKeeps(k, n, p, fence);
    case QuarantineNode(n) => SetNodeKeeps(k, n, Quarantined);
    case UnquarantineNode(n) => UnquarantineKeeps(k, n);
  }

  lemma UnquarantineKeeps(k: Kernel, n: NodeId)
    requires Inv(k) && Unquarantine(k, n).Accepted?
    ensures Inv(Unquarantine(k, n).k)
  {
    hide Inv, SetNode;
    if NodeStateOf(k, n) == Quarantined {
      SetNodeKeeps(k, n, Schedulable);
    }
  }

  lemma LeaseStepKeeps(k: Kernel, c: Command)
    requires Inv(k) && Step(k, c).Accepted?
    requires c.ReserveLease? || c.PromoteLease? || c.OpenLease? || c.ActivateLease? || c.FailLease? || c.ReleaseLease?
             || c.CompleteLease? || c.RevokeLease? || c.ExpireLease? || c.RenewLease?
    ensures Inv(Step(k, c).k)
  {
    hide Inv, Install, ApplyUnowned, ApplyResourceFacts, ApplyProviderFacts, Adopt, Reserve, Promote, Open;
    hide ActivateLeaseStep, Fail, ReleaseLeaseStep, Complete, Revoke, Expire, Renew, Bind, ActivateBindingStep;
    hide FailBindingStep, PreparedAck, ActiveAck, ClosedAck, FailedAck, AgentSession, Observe, SetNode, Rebind;
    hide AdvanceFence;
    match c
    case ReserveLease(_, _, _, _, _, _) => ReserveKeeps(k, c);
    case PromoteLease(l, deadline) => PromoteKeeps(k, l, deadline);
    case OpenLease(_, _, _, _, _, _, _, _) => OpenKeeps(k, c);
    case ActivateLease(l) => ActivateLeaseKeeps(k, l);
    case FailLease(l) => FailKeeps(k, l);
    case ReleaseLease(l) => ReleaseLeaseKeeps(k, l);
    case CompleteLease(l, code) => CompleteKeeps(k, l, code);
    case RevokeLease(l) => RevokeKeeps(k, l);
    case ExpireLease(l) => ExpireKeeps(k, l);
    case RenewLease(l, at) => RenewKeeps(k, l, at);
  }

  lemma FactsKeep(k: Kernel, c: Command)
    requires Inv(k) && Step(k, c).Accepted?
    requires c.ApplyGraphCmd? || c.ApplyResourceFactsCmd? || c.ApplyProviderFactsCmd? || c.AdoptFactWritersCmd?
    ensures Inv(Step(k, c).k)
  {
    hide Inv, Install, ApplyUnowned, ApplyResourceFacts, ApplyProviderFacts, Adopt;
    match c
    case ApplyGraphCmd(nodes, edges) => ApplyGraphKeeps(k, nodes, edges);
    case ApplyResourceFactsCmd(nodes, edges, updates) => ResourceFactsKeep(k, nodes, edges, updates);
    case ApplyProviderFactsCmd(batches, updates) => ProviderFactsKeep(k, batches, updates);
    case AdoptFactWritersCmd(assignments) => AdoptKeeps(k, assignments);
  }

  /** Every accepted command keeps the invariant. */
  lemma StepKeeps(k: Kernel, c: Command)
    requires Inv(k) && Step(k, c).Accepted?
    ensures Inv(Step(k, c).k)
  {
    hide Inv, Step;
    if c.ApplyGraphCmd? || c.ApplyResourceFactsCmd? || c.ApplyProviderFactsCmd? || c.AdoptFactWritersCmd? {
      FactsKeep(k, c);
    } else if c.RecordPrepared? || c.RecordActive? || c.RecordReleased? || c.RecordFenced? || c.RecordFailed? {
      AcknowledgementKeeps(k, c);
    } else if c.OpenBinding? || c.ActivateBinding? || c.FenceBinding? || c.FailBinding? || c.ReleaseBinding?
              || c.RebindSession? {
      EnforcementKeeps(k, c);
    } else if c.SetAgentSession? || c.SetNodeHealth? || c.SetNodeState? || c.AdvanceEndpointFence?
              || c.QuarantineNode? || c.UnquarantineNode? {
      MachineKeeps(k, c);
    } else {
      LeaseStepKeeps(k, c);
    }
  }

  lemma AdvanceFenceKeeps(k: Kernel, n: NodeId, p: ProviderId, fence: nat)
    requires Inv(k) && AdvanceFence(k, n, p, fence).Accepted?
    ensures Inv(AdvanceFence(k, n, p, fence).k)
  {
    var k' := AdvanceFence(k, n, p, fence).k;
    SessionsUnchanged(k, k');
    assert forall q, m :: Watermark(k.lastFence, q, m) <= Watermark(k'.lastFence, q, m);
  }
}
