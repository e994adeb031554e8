/** The cluster object as the code runs it (crates/kernel/src/cluster.rs): fields
    updated in place, one method per command, each proved against the transition
    function of `Kernel`. */
module ClusterObject {
  import opened Forest
  import opened Quantities
  import opened ResourceGraph
  import opened Facts
  import opened Occupancy
  import opened Kernel
  import opened Authority
  import opened Runs
  import opened Replay

  /** The effects of an accepted command; `None` when it is refused. */
  type Reply = Option<set<Effect>>

  /** An accepted command moves the state as the transition function says; a refused
      one leaves no trace. */
  ghost predicate Meets(reply: Reply, before: Kernel, after: Kernel, o: Outcome) {
    if o.Accepted? then reply == Some(o.effects) && after == o.k else reply.None? && after == before
  }

  predicate ChangesNodeState(c: Command) {
    c.SetNodeState? || c.QuarantineNode? || c.UnquarantineNode?
  }

  predicate ChangesLeases(c: Command) {
    c.ReserveLease? || c.PromoteLease? || c.OpenLease? || c.ActivateLease? || c.FailLease? || c.ReleaseLease?
    || c.CompleteLease? || c.RevokeLease? || c.ExpireLease? || c.RenewLease?
  }

  /* ---------- claims ---------- */

  method ResolveClaim(g: Graph, c: Claim) returns (r: Option<Claim>)
    ensures r == if Resolvable(g, c) then Some(Claim(c.node, ResolvedQuantity(g, c))) else None
  {
    if c.node !in g.nodes {
      return None;
    }
    var quantity := ResolvedQuantity(g, c);
    var contract := ClaimBindingForQuantity(g, c.node, quantity);
    return if contract.Some? then Some(Claim(c.node, quantity)) else None;
  }

  method ResolveAll(g: Graph, claims: seq<Claim>) returns (r: Option<seq<Claim>>)
    ensures r == if AllResolvable(g, claims) then Some(Resolve(g, claims)) else None
  {
    var out: seq<Claim> := [];
    for i := 0 to |claims|
      invariant AllResolvable(g, claims[..i]) && out == Resolve(g, claims[..i])
    {
      var resolved := ResolveClaim(g, claims[i]);
      if resolved.None? {
        return None;
      }
      out := out + [resolved.value];
    }
    assert claims[..|claims|] == claims;
    return Some(out);
  }

  /** The loop of `reserve_lease` and `open_lease`: it also refuses a node named twice. */
  method ResolveDistinct(g: Graph, claims: seq<Claim>) returns (r: Option<seq<Claim>>)
    ensures r == if UniqueNodes(claims) && AllResolvable(g, claims) then Some(Resolve(g, claims)) else None
  {
    var out: seq<Claim> := [];
    var seen: set<NodeId> := {};
    for i := 0 to |claims|
      invariant UniqueNodes(claims[..i]) && AllResolvable(g, claims[..i]) && out == Resolve(g, claims[..i])
      invariant seen == set j | 0 <= j < i :: claims[j].node
    {
      if claims[i].node in seen {
        return None;
      }
      seen := seen + {claims[i].node};
      var resolved := ResolveClaim(g, claims[i]);
      if resolved.None? {
        return None;
      }
      out := out + [resolved.value];
    }
    assert claims[..|claims|] == claims;
    return Some(out);
  }

  lemma ResolvedQuarantine(k: Kernel, claims: seq<Claim>)
    ensures NoneQuarantined(k, Resolve(k.graph, claims)) <==> NoneQuarantined(k, claims)
  {
    assert forall i :: 0 <= i < |claims| ==> Resolve(k.graph, claims)[i].node == claims[i].node;
  }

  /* ---------- the delegation tree ---------- */

  function Children(leases: Leases, p: LeaseId): set<LeaseId> {
    set l | l in leases && leases[l].parent == Some(p)
  }

  ghost function BelowSet(leases: Leases, a: LeaseId): set<LeaseId> {
    set l | l in leases && Below(leases, l, a)
  }

  /** Nothing is listed before something delegated from it. */
  ghost predicate ChildrenFirst(leases: Leases, out: seq<LeaseId>) {
    forall i, j :: 0 <= i < j < |out| ==> !Below(leases, out[j], out[i])
  }

  /** `out` lists exactly `ids`, each once, children before parents. */
  ghost predicate Postorder(leases: Leases, out: seq<LeaseId>, ids: set<LeaseId>) {
    Distinct(out) && Elements(out) == ids && ChildrenFirst(leases, out)
  }

  ghost predicate In(leases: Leases, l: LeaseId, c: LeaseId) {
    l == c || Below(leases, l, c)
  }

  /** The subtrees of two siblings do not meet, and nothing in one is under the other. */
  lemma SiblingsApart(leases: Leases, p: LeaseId, c: LeaseId, d: LeaseId, x: LeaseId, y: LeaseId)
    requires Acyclic(LeaseParents(leases)) && c != d && c in Children(leases, p) && d in Children(leases, p)
    requires In(leases, x, c) && In(leases, y, d)
    ensures x != y && !Below(leases, x, y)
  {
    if x == y || Below(leases, x, y) {
      assert In(leases, x, d) by {
        if x != y && y != d { BelowTransitive(leases, x, y, d); }
      }
      assert Below(leases, c, d) || Below(leases, d, c) by {
        if x != c && x != d { LineageIsLine(leases, x, c, d); }
      }
      BelowStep(leases, c, d);
      BelowStep(leases, d, c);
      BelowStep(leases, c, p);
      BelowStep(leases, d, p);
      NotBelowItself(leases, p);
      if Below(leases, p, d) { BelowTransitive(leases, p, d, p); }
      if Below(leases, p, c) { BelowTransitive(leases, p, c, p); }
      NotBelowItself(leases, c);
      NotBelowItself(leases, d);
    }
  }

  ghost function Covered(leases: Leases, roots: set<LeaseId>): set<LeaseId> {
    set c, l | c in roots && l in leases && In(leases, l, c) :: l
  }

  lemma ChildrenFirstConcat(leases: Leases, a: seq<LeaseId>, b: seq<LeaseId>)
    requires ChildrenFirst(leases, a) && ChildrenFirst(leases, b)
    requires forall x, y :: x in a && y in b ==> !Below(leases, y, x)
    ensures ChildrenFirst(leases, a + b)
  {
  }

  lemma PostorderConcat(leases: Leases, a: seq<LeaseId>, ids: set<LeaseId>, b: seq<LeaseId>, more: set<LeaseId>)
    requires Postorder(leases, a, ids) && Postorder(leases, b, more)
    requires forall x, y :: x in ids && y in more ==> x != y && !Below(leases, y, x)
    ensures Postorder(leases, a + b, ids + more)
  {
    assert forall x :: x in a ==> x in Elements(a);
    assert forall x :: x in b ==> x in Elements(b);
    DistinctConcat(a, b);
    ChildrenFirstConcat(leases, a, b);
  }

  lemma AppendSubtree(leases: Leases, p: LeaseId, done: set<LeaseId>, out: seq<LeaseId>, c: LeaseId, sub: seq<LeaseId>)
    requires Acyclic(LeaseParents(leases)) && done <= Children(leases, p) && c in Children(leases, p) && c !in done
    requires Postorder(leases, out, Covered(leases, done)) && Postorder(leases, sub, BelowSet(leases, c))
    ensures Postorder(leases, out + (sub + [c]), Covered(leases, done + {c}))
  {
    hide Below;
    forall x | x in BelowSet(leases, c)
      ensures x != c && !Below(leases, c, x)
    {
      NotBelowItself(leases, c);
      if Below(leases, c, x) { BelowTransitive(leases, c, x, c); }
    }
    PostorderConcat(leases, sub, BelowSet(leases, c), [c], {c});
    forall x, y | x in Covered(leases, done) && y in BelowSet(leases, c) + {c}
      ensures x != y && !Below(leases, y, x)
    {
      var d :| d in done && In(leases, x, d);
      SiblingsApart(leases, p, c, d, y, x);
    }
    PostorderConcat(leases, out, Covered(leases, done), sub + [c], BelowSet(leases, c) + {c});
    CoveredAdd(leases, done, c);
  }

  lemma CoveredAdd(leases: Leases, done: set<LeaseId>, c: LeaseId)
    requires c in leases
    ensures Covered(leases, done + {c}) == Covered(leases, done) + (BelowSet(leases, c) + {c})
  {
  }

  lemma ChildrenCoverBelow(leases: Leases, p: LeaseId)
    requires Acyclic(LeaseParents(leases))
    ensures Covered(leases, Children(leases, p)) == BelowSet(leases, p)
  {
    forall l
      ensures l in Covered(leases, Children(leases, p)) <==> l in BelowSet(leases, p)
    {
      if l in Covered(leases, Children(leases, p)) {
        var c :| c in Children(leases, p) && In(leases, l, c);
        BelowStep(leases, c, p);
        if l != c { BelowTransitive(leases, l, c, p); }
      }
      if l in BelowSet(leases, p) {
        BelowHasChild(leases, l, p);
      }
    }
  }

  lemma {:induction false} BelowHasChild(leases: Leases, l: LeaseId, p: LeaseId)
    requires Below(leases, l, p)
    ensures exists c :: c in Children(leases, p) && In(leases, l, c)
    decreases RankAt(RankOf(LeaseParents(leases)), l)
  {
    BelowStep(leases, l, p);
    var q := leases[l].parent.value;
    if q == p {
      assert l in Children(leases, p) && In(leases, l, l);
    } else {
      BelowHasChild(leases, q, p);
      var c :| c in Children(leases, p) && In(leases, q, c);
      BelowStep(leases, l, c);
      assert In(leases, l, c);
    }
  }

  /** Everything delegated from `parent`, each lease once and after its own children. */
  method DescendantsPostorder(leases: Leases, parent: LeaseId) returns (out: seq<LeaseId>)
    requires Acyclic(LeaseParents(leases))
    ensures Postorder(leases, out, BelowSet(leases, parent))
    decreases BelowSet(leases, parent)
  {
    out := [];
    var todo := Children(leases, parent);
    ghost var done: set<LeaseId> := {};
    while todo != {}
      invariant todo <= Children(leases, parent) && done == Children(leases, parent) - todo
      invariant Postorder(leases, out, Covered(leases, done))
    {
      var child :| child in todo;
      ChildIsSmaller(leases, parent, child);
      var sub := DescendantsPostorder(leases, child);
      AppendSubtree(leases, parent, done, out, child, sub);
      out := out + (sub + [child]);
      todo := todo - {child};
      done := done + {child};
    }
    ChildrenCoverBelow(leases, parent);
    assert done == Children(leases, parent);
  }

  lemma ChildIsSmaller(leases: Leases, p: LeaseId, c: LeaseId)
    requires Acyclic(LeaseParents(leases)) && c in Children(leases, p)
    ensures BelowSet(leases, c) < BelowSet(leases, p)
  {
    BelowStep(leases, c, p);
    NotBelowItself(leases, c);
    forall l | l in BelowSet(leases, c)
      ensures l in BelowSet(leases, p)
    {
      BelowTransitive(leases, l, c, p);
    }
    assert c in BelowSet(leases, p) && c !in BelowSet(leases, c);
  }

  /* ---------- ending authority ---------- */

  /** The leases after the first `done` of the listed leases were ended. */
  ghost function EndListed(leases: Leases, done: set<LeaseId>, s: LeaseState, kept: set<LeaseState>): Leases {
    map l | l in leases :: if l in done && leases[l].state !in kept then leases[l].(state := s) else leases[l]
  }

  ghost function FencesOf(k: Kernel, ids: set<LeaseId>): set<Effect> {
    set b | b in k.bindings && k.bindings[b].lease in ids && !Closed(k.bindings[b].state) :: EffectFor(k, Fence, b)
  }

  function Ending(leases: Leases, l: LeaseId, s: LeaseState, kept: set<LeaseState>): Leases {
    if l in leases && leases[l].state !in kept then leases[l := leases[l].(state := s)] else leases
  }

  lemma EndOneMore(k: Kernel, done: set<LeaseId>, l: LeaseId, s: LeaseState, kept: set<LeaseState>)
    requires l in k.leases && l !in done
    ensures EndListed(k.leases, done + {l}, s, kept) == Ending(EndListed(k.leases, done, s, kept), l, s, kept)
    ensures FencesOf(k, done + {l}) == FencesOf(k, done) + EffectsOf(k, Fence, l)
  {
  }

  lemma EndAll(k: Kernel, id: LeaseId, s: LeaseState, kept: set<LeaseState>)
    requires BindingsSound(k.leases, k.bindings)
    ensures EndListed(k.leases, BelowSet(k.leases, id), s, kept) == CascadeLeases(k.leases, id, s, kept)
    ensures FencesOf(k, BelowSet(k.leases, id)) == BelowFences(k, id)
  {
  }

  lemma EndNone(k: Kernel, s: LeaseState, kept: set<LeaseState>)
    ensures EndListed(k.leases, {}, s, kept) == k.leases && FencesOf(k, {}) == {}
  {
  }

  predicate ClaimsUnder(g: Graph, claims: seq<Claim>, n: NodeId) {
    exists i :: 0 <= i < |claims| && InScope(g, claims[i].node, n)
  }

  /** Whether every claim of an occupying lease keeps its machine. */
  method MachinesKept(k: Kernel, staged: Graph) returns (kept: bool)
    ensures kept <==> KeepsMachines(k, staged)
  {
    var occ := Occ(k.leases, k.bindings);
    var todo := occ;
    while todo != {}
      invariant todo <= occ
      invariant forall l, i :: l in occ && l !in todo && l in k.leases && 0 <= i < |k.leases[l].claims| ==>
                  MachineOf(k.graph, k.leases[l].claims[i].node) == MachineOf(staged, k.leases[l].claims[i].node)
    {
      var l :| l in todo;
      var claims := k.leases[l].claims;
      if exists i | 0 <= i < |claims| :: MachineOf(k.graph, claims[i].node) != MachineOf(staged, claims[i].node) {
        return false;
      }
      todo := todo - {l};
    }
    return true;
  }

  class Cluster {
    var epoch: nat
    var now: nat
    var agreed: bool
    var replaying: bool
    var graph: Graph
    var log: seq<Command>
    var leases: Leases
    var bindings: Bindings
    var sessions: map<NodeId, nat>
    var lastFence: map<(ProviderId, NodeId), nat>
    var nodeStates: map<NodeId, NodeState>

    function State(): Kernel
      reads this
    {
      Kernel(epoch, now, agreed, replaying, graph, leases, bindings, sessions, lastFence, nodeStates)
    }

    ghost predicate Valid()
      reads this
    {
      Inv(State())
    }

    constructor ()
      ensures State() == Initial() && log == [] && Valid()
    {
      epoch, now, agreed, replaying := 1, 0, true, false;
      graph, log := EmptyGraph(), [];
      leases, bindings, sessions, lastFence, nodeStates := map[], map[], map[], map[], map[];
      new;
      InitialInv();
    }

    /** A cluster loaded from a snapshot. */
    constructor Restored(k: Kernel)
      requires Inv(k)
      ensures State() == k && log == [] && Valid()
    {
      epoch, now, agreed, replaying := k.epoch, k.now, k.agreed, k.replaying;
      graph, log := k.graph, [];
      leases, bindings, sessions, lastFence, nodeStates := k.leases, k.bindings, k.sessions, k.lastFence, k.nodeStates;
    }

    method SetNow(now: nat)
      modifies this`now
      ensures State() == After(old(State()), Event.SetNow(now))
    {
      hide Step;
      this.now := now;
    }

    method SetAgreement(agreed: bool)
      modifies this`agreed
      ensures State() == After(old(State()), Event.SetAgreement(agreed))
    {
      hide Step;
      this.agreed := agreed;
    }

    method SetReplaying(replaying: bool)
      modifies this`replaying
      ensures State() == After(old(State()), Event.SetReplaying(replaying))
    {
      hide Step;
      this.replaying := replaying;
    }

    method AdvanceEpoch()
      modifies this`epoch
      ensures State() == After(old(State()), Event.AdvanceEpoch)
    {
      hide Step;
      epoch := Successor(epoch);
    }

    /* ---------- resource facts ---------- */

    method OccupancyExceptLeases(except: set<LeaseId>) returns (used: Used)
      ensures used == OccupancyExcept(State(), except)
    {
      used := OccupancyFromLeases(leases, OpenLeases(bindings), except);
    }

    method InstallResourceGraph(staged: Graph) returns (reply: Reply)
      requires agreed
      modifies this`graph
      ensures Meets(reply, old(State()), State(), Install(old(State()), Some(staged)))
    {
      hide OccupancyExcept, KeepsMachines, Le;
      var used := OccupancyExceptLeases({});
      var kept := MachinesKept(State(), staged);
      if !kept || exists n :: n in used && !(n in staged.nodes && Le(used[n], staged.nodes[n].capacity)) {
        return None;
      }
      graph := staged;
      return Some({});
    }

    method ApplyGraphFacts(nodes: seq<Node>, edges: seq<Edge>) returns (reply: Reply)
      requires Valid()
      modifies this`graph
      ensures Meets(reply, old(State()), State(), Install(old(State()), ApplyUnowned(old(graph), nodes, edges)))
    {
      if !agreed {
        return None;
      }
      var staged := ApplyGraph(graph, nodes, edges);
      if staged.None? {
        return None;
      }
      reply := InstallResourceGraph(staged.value);
    }

    method ApplyResources(nodes: seq<Node>, edges: seq<Edge>, updates: seq<ClaimBindingUpdate>) returns (reply: Reply)
      requires Valid()
      modifies this`graph
      ensures Meets(reply, old(State()), State(),
                    Install(old(State()), ApplyResourceFacts(old(graph), nodes, edges, updates)))
    {
      if !agreed {
        return None;
      }
      var staged := ResourceFacts(graph, nodes, edges, updates);
      if staged.None? {
        return None;
      }
      reply := InstallResourceGraph(staged.value);
    }

    method ApplyProviders(batches: seq<FactBatch>, updates: seq<ClaimBindingUpdate>) returns (reply: Reply)
      requires Valid()
      modifies this`graph
      ensures Meets(reply, old(State()), State(),
                    Install(old(State()), ApplyProviderFacts(old(graph), batches, updates)))
    {
      if !agreed {
        return None;
      }
      var staged := ProviderFacts(graph, batches, updates);
      if staged.None? {
        return None;
      }
      reply := InstallResourceGraph(staged.value);
    }

    method AdoptWriters(assignments: seq<WriterAssignment>) returns (reply: Reply)
      modifies this`graph
      ensures Meets(reply, old(State()), State(), Adopt(old(State()), assignments))
    {
      if !agreed {
        return None;
      }
      var staged := AdoptFactWriters(graph, assignments);
      if staged.None? {
        return None;
      }
      graph := staged.value;
      return Some({});
    }

    /* ---------- leases ---------- */

    method ReserveLease(c: Command) returns (reply: Reply)
      requires c.ReserveLease?
      modifies this`leases
      ensures Meets(reply, old(State()), State(), Reserve(old(State()), c))
    {
      if !agreed {
        return None;
      }
      if c.lease in leases {
        var x := leases[c.lease];
        return if x.state == Reserved && x.owner == c.owner && x.claims == c.claims && x.expiresAt == c.expiresAt
               then Some({}) else None;
      }
      if c.revision != graph.revision {
        return None;
      }
      var claims := ResolveDistinct(graph, c.claims);
      ResolvedQuarantine(State(), c.claims);
      if claims.None? || !NoneQuarantined(State(), claims.value) {
        return None;
      }
      var used := OccupancyExceptLeases({c.lease});
      if !CoversAll(graph, used, claims.value) {
        return None;
      }
      leases := leases[c.lease :=
        Lease(c.owner, claims.value, c.revision, None, c.expiresAt, 0, c.priority, Reserved, None)];
      return Some({});
    }

    method PromoteLease(id: LeaseId, deadline: nat) returns (reply: Reply)
      modifies this`leases
      ensures Meets(reply, old(State()), State(), Promote(old(State()), id, deadline))
    {
      if !agreed || id !in leases {
        return None;
      }
      var x := leases[id];
      if x.state == Preparing {
        return Some({});
      }
      if x.state != Reserved {
        return None;
      }
      var claims := ResolveAll(graph, x.claims);
      ResolvedQuarantine(State(), x.claims);
      if claims.None? || !NoneQuarantined(State(), claims.value) || (!replaying && now >= x.expiresAt) {
        return None;
      }
      var used := OccupancyExceptLeases({id});
      if !CoversAll(graph, used, claims.value) {
        return None;
      }
      leases := leases[id := x.(claims := claims.value, revision := graph.revision, state := Preparing,
                                prepareDeadline := deadline)];
      return Some({});
    }

    method CheckParent(id: LeaseId, p: LeaseId, claims: seq<Claim>) returns (ok: bool)
      ensures ok <==> FitsParent(State(), id, p, claims)
    {
      if p !in leases || leases[p].state != Active || !Covers(leases[p].claims, claims) {
        return false;
      }
      var siblings := SubtreeUsed(leases, OpenLeases(bindings), p, id);
      return FitsBesideSiblings(leases[p].claims, siblings, claims);
    }

    method CheckCapacity(id: LeaseId, claims: seq<Claim>) returns (ok: bool)
      ensures ok <==> CoversAll(graph, OccupancyExcept(State(), {id}), claims)
    {
      var used := OccupancyExceptLeases({id});
      return CoversAll(graph, used, claims);
    }

    method OpenLease(c: Command) returns (reply: Reply)
      requires c.OpenLease?
      modifies this`leases
      ensures Meets(reply, old(State()), State(), Open(old(State()), c))
    {
      if !agreed {
        return None;
      }
      if c.lease in leases {
        var x := leases[c.lease];
        return if x.owner == c.owner && x.parent == c.parent && x.claims == c.claims then Some({}) else None;
      }
      if c.revision != graph.revision {
        return None;
      }
      var claims := ResolveDistinct(graph, c.claims);
      ResolvedQuarantine(State(), c.claims);
      if claims.None? || !NoneQuarantined(State(), claims.value) {
        return None;
      }
      var ok: bool;
      if c.parent.Some? {
        ok := CheckParent(c.lease, c.parent.value, claims.value);
      } else {
        ok := CheckCapacity(c.lease, claims.value);
      }
      if !ok {
        return None;
      }
      leases := leases[c.lease := Lease(c.owner, claims.value, c.revision, c.parent, c.expiresAt, c.prepareDeadline,
                                        c.priority, Preparing, None)];
      return Some({});
    }

    method ActivateLease(id: LeaseId) returns (reply: Reply)
      modifies this`leases
      ensures Meets(reply, old(State()), State(), ActivateLeaseStep(old(State()), id))
    {
      if !agreed || id !in leases {
        return None;
      }
      var x := leases[id];
      if x.state == Active {
        return Some({});
      }
      if x.state != Preparing || x.revision != graph.revision || !NoneQuarantined(State(), x.claims) {
        return None;
      }
      if !replaying && (now >= x.expiresAt || now > x.prepareDeadline) {
        return None;
      }
      if x.parent.Some? {
        if x.parent.value !in leases || leases[x.parent.value].state != Active {
          return None;
        }
      } else {
        var ok := CheckCapacity(id, x.claims);
        if !ok {
          return None;
        }
      }
      if !BindingsPrepared(bindings, id) {
        return None;
      }
      if x.parent.None? && exists i :: 0 <= i < |x.claims| && !PreparedOn(bindings, id, x.claims[i].node) {
        return None;
      }
      leases := leases[id := x.(state := Active)];
      return Some({});
    }

    /** Ends one delegated lease and fences its bindings. */
    method EndOne(l: LeaseId, s: LeaseState, kept: set<LeaseState>) returns (effects: set<Effect>)
      modifies this`leases
      ensures leases == Ending(old(leases), l, s, kept)
      ensures effects == EffectsOf(old(State()), Fence, l)
    {
      EffectsIgnoreLeases(State(), Ending(leases, l, s, kept), Fence, l);
      if l in leases && leases[l].state !in kept {
        leases := leases[l := leases[l].(state := s)];
      }
      effects := EffectsOf(State(), Fence, l);
    }

    /** Ends everything delegated from `id` that is not already in a kept state. */
    method EndBelow(id: LeaseId, s: LeaseState, kept: set<LeaseState>) returns (effects: set<Effect>)
      requires Valid()
      modifies this`leases
      ensures leases == CascadeLeases(old(leases), id, s, kept)
      ensures effects == BelowFences(old(State()), id)
    {
      ghost var k := State();
      SoundBindings(k);
      var listed := DescendantsPostorder(leases, id);
      assert Distinct(listed) && Elements(listed) == BelowSet(k.leases, id) <= k.leases.Keys;
      hide Inv, BindingsSound, Below, EffectFor, EndListed, FencesOf, EffectsOf, Ending, BelowFences, CascadeLeases;
      hide Postorder, BelowSet, Distinct, Elements;
      effects := {};
      EndNone(k, s, kept);
      NoneListed(listed);
      for i := 0 to |listed|
        invariant leases == EndListed(k.leases, Elements(listed[..i]), s, kept)
        invariant effects == FencesOf(k, Elements(listed[..i]))
      {
        NextListed(listed, i);
        EndOneMore(k, Elements(listed[..i]), listed[i], s, kept);
        EffectsIgnoreLeases(k, leases, Fence, listed[i]);
        var more := EndOne(listed[i], s, kept);
        effects := effects + more;
      }
      NoneListed(listed);
      EndAll(k, id, s, kept);
    }

    method FailLease(id: LeaseId) returns (reply: Reply)
      requires Valid()
      modifies this`leases
      ensures Meets(reply, old(State()), State(), Fail(old(State()), id))
    {
      hide Inv, CascadeLeases, EffectsOf, BelowFences;
      ghost var k := State();
      TopOfCascade(k, id, Failed, SETTLED);
      var effects := EndBelow(id, Failed, SETTLED);
      if id !in leases {
        return None;
      }
      if leases[id].state in SETTLED {
        return Some(effects);
      }
      leases := leases[id := leases[id].(state := Failed)];
      EffectsIgnoreLeases(k, leases, Fence, id);
      return Some(effects + EffectsOf(State(), Fence, id));
    }

    method HasLiveDescendants(id: LeaseId) returns (live: bool)
      requires Valid()
      ensures live <==> HasLiveBelow(State(), id)
    {
      var listed := DescendantsPostorder(leases, id);
      ghost var k := State();
      assert forall l :: l in listed <==> l in Elements(listed);
      hide Inv, Below;
      return exists l :: l in listed && l in Occ(leases, bindings);
    }

    method ReleaseLease(id: LeaseId) returns (reply: Reply)
      requires Valid()
      modifies this`leases
      ensures Meets(reply, old(State()), State(), ReleaseLeaseStep(old(State()), id))
    {
      ghost var k := State();
      hide Inv, EffectsOf, HasLiveBelow;
      var live := HasLiveDescendants(id);
      if live || id !in leases {
        return None;
      }
      var s := leases[id].state;
      if s == Released {
        return Some(EffectsOf(State(), Release, id));
      }
      if s != Active && s != Reserved {
        return None;
      }
      leases := leases[id := leases[id].(state := Released)];
      EffectsIgnoreLeases(k, leases, Release, id);
      return Some(EffectsOf(State(), Release, id));
    }

    method RevokeLease(id: LeaseId) returns (reply: Reply)
      requires Valid()
      modifies this`leases
      ensures Meets(reply, old(State()), State(), Revoke(old(State()), id))
    {
      hide Inv, CascadeLeases, EffectsOf, BelowFences, Revoke, Ending;
      ghost var k := State();
      TopOfCascade(k, id, Revoked, SETTLED);
      RevokeIs(k, id);
      var effects := EndBelow(id, Revoked, SETTLED);
      if id !in leases {
        return None;
      }
      EffectsIgnoreLeases(k, leases, Fence, id);
      var own := EndOne(id, Revoked, SETTLED);
      return Some(effects + own);
    }

    method ExpireLease(id: LeaseId) returns (reply: Reply)
      requires Valid()
      modifies this`leases
      ensures Meets(reply, old(State()), State(), Expire(old(State()), id))
    {
      ghost var k := State();
      TopOfCascade(k, id, Expired, SETTLED);
      hide Inv, CascadeLeases, EffectsOf, BelowFences;
      if id !in leases {
        return None;
      }
      if leases[id].state == Expired {
        return Some(EffectsOf(State(), Fence, id));
      }
      if !Live(leases[id].state) || (!replaying && now < leases[id].expiresAt) {
        return None;
      }
      var effects := EndBelow(id, Expired, SETTLED);
      leases := leases[id := leases[id].(state := Expired)];
      EffectsIgnoreLeases(k, leases, Fence, id);
      return Some(effects + EffectsOf(State(), Fence, id));
    }

    method CompleteLease(id: LeaseId, exitCode: int) returns (reply: Reply)
      requires Valid()
      modifies this`leases
      ensures Meets(reply, old(State()), State(), Complete(old(State()), id, exitCode))
    {
      ghost var k := State();
      var final := if exitCode == 0 then Completed else Failed;
      TopOfCascade(k, id, final, SETTLED + {Completed});
      hide Inv, CascadeLeases, EffectsOf, BelowFences;
      if id !in leases {
        return None;
      }
      if leases[id].state == Completed || leases[id].state == Failed {
        return Some(EffectsOf(State(), Fence, id));
      }
      if !Live(leases[id].state) {
        return None;
      }
      var effects := EndBelow(id, final, SETTLED + {Completed});
      leases := leases[id := leases[id].(state := final, exitCode := Some(exitCode))];
      EffectsIgnoreLeases(k, leases, Fence, id);
      return Some(effects + EffectsOf(State(), Fence, id));
    }

    method RenewLease(id: LeaseId, at: nat) returns (reply: Reply)
      modifies this`leases
      ensures Meets(reply, old(State()), State(), Renew(old(State()), id, at))
    {
      if !agreed || id !in leases {
        return None;
      }
      var x := leases[id];
      if x.state != Active && x.state != Reserved {
        return None;
      }
      if at == x.expiresAt {
        return Some({});
      }
      if at <= x.expiresAt || (!replaying && at <= now) {
        return None;
      }
      leases := leases[id := x.(expiresAt := at)];
      return Some({});
    }

    /* ---------- bindings ---------- */

    method OpenBinding(c: Command) returns (reply: Reply)
      requires c.OpenBinding?
      modifies this`bindings, this`lastFence
      ensures Meets(reply, old(State()), State(), Bind(old(State()), c))
    {
      if c.binding in bindings {
        var x := bindings[c.binding];
        if x.lease != c.lease || x.node != c.node || x.provider != c.provider || x.scope != c.scope {
          return None;
        }
        return Some(if x.state.BPreparing? then {EffectFor(State(), Prepare, c.binding)} else {});
      }
      if c.lease !in leases || leases[c.lease].state != Preparing || leases[c.lease].parent.Some? {
        return None;
      }
      var claim := FindClaim(leases[c.lease].claims, c.node);
      if claim.None? {
        return None;
      }
      var required := ClaimBindingForQuantity(graph, c.node, claim.value.quantity);
      if required != Some(ClaimBinding(c.provider, c.scope)) || NodeQuarantined(State(), c.node) {
        return None;
      }
      var session := SessionOf(State(), c.node);
      if session.None? || Conflicts(bindings, c.node, c.provider, c.scope) {
        return None;
      }
      hide ContractFor, NodeQuarantined, SessionOf, Conflicts;
      var fence := if c.binding < 1 then 1 else c.binding;
      if c.scope == Exclusive {
        fence := Watermark(lastFence, c.provider, c.node) + 1;
        lastFence := lastFence[(c.provider, c.node) := fence];
      }
      bindings := bindings[c.binding :=
        Binding(c.lease, c.node, c.provider, c.scope, fence, session.value, BPreparing, None)];
      return Some({EffectFor(State(), Prepare, c.binding)});
    }

    method ActivateBinding(b: BindingId) returns (reply: Reply)
      modifies this`bindings
      ensures Meets(reply, old(State()), State(), ActivateBindingStep(old(State()), b))
    {
      if b !in bindings {
        return None;
      }
      var x := bindings[b];
      if x.lease !in leases || leases[x.lease].state != Active {
        return None;
      }
      var effect := EffectFor(State(), Op.Activate, b);
      if x.state.BActive? {
        return Some({effect});
      }
      if !x.state.BPreparing? {
        return None;
      }
      bindings := bindings[b := x.(state := BActive)];
      return Some({effect});
    }

    method FailBinding(b: BindingId) returns (reply: Reply)
      modifies this`bindings
      ensures Meets(reply, old(State()), State(), FailBindingStep(old(State()), b))
    {
      if b !in bindings {
        return None;
      }
      if Closed(bindings[b].state) {
        return Some({});
      }
      bindings := bindings[b := bindings[b].(state := BFailed)];
      return Some({EffectFor(State(), Fence, b)});
    }

    method RecordPrepared(b: BindingId, session: nat, handle: nat, fence: nat) returns (reply: Reply)
      modifies this`bindings
      ensures Meets(reply, old(State()), State(), PreparedAck(old(State()), b, session, handle, fence))
    {
      if !AckMatches(State(), b, session, fence) {
        return None;
      }
      if bindings[b].state.BPreparing? || bindings[b].state.BActive? {
        bindings := bindings[b := bindings[b].(handle := Some(handle), session := session)];
        return Some({});
      }
      return None;
    }

    method RecordActive(b: BindingId, session: nat, fence: nat) returns (reply: Reply)
      modifies this`bindings
      ensures Meets(reply, old(State()), State(), ActiveAck(old(State()), b, session, fence))
    {
      if !AckMatches(State(), b, session, fence) || !bindings[b].state.BActive? {
        return None;
      }
      bindings := bindings[b := bindings[b].(session := session)];
      return Some({});
    }

    method RecordClosed(b: BindingId, session: nat, fence: nat, s: BindingState) returns (reply: Reply)
      modifies this`bindings
      ensures Meets(reply, old(State()), State(), ClosedAck(old(State()), b, session, fence, s))
    {
      if !AckMatches(State(), b, session, fence) {
        return None;
      }
      bindings := bindings[b := bindings[b].(session := session, state := s)];
      return Some({});
    }

    method MarkFailed(b: BindingId, session: nat)
      requires b in bindings
      modifies this`bindings
      ensures var x := old(bindings)[b];
              bindings == old(bindings)[b :=
                x.(session := session, state := if Closed(x.state) then x.state else BFailed)]
    {
      bindings := bindings[b := bindings[b].(session := session)];
      if !Closed(bindings[b].state) {
        bindings := bindings[b := bindings[b].(state := BFailed)];
      }
    }

    /** Writes the binding before it looks the lease up: nothing is left behind on a
        refusal only because every binding names a known lease. */
    method RecordFailed(b: BindingId, session: nat, fence: nat) returns (reply: Reply)
      requires Valid()
      modifies this`bindings, this`leases
      ensures Meets(reply, old(State()), State(), FailedAck(old(State()), b, session, fence))
    {
      hide Inv, BindingsSound, EffectsOf, SessionOf;
      SoundBindings(State());
      if b in bindings {
        RootBinding(leases, bindings, b);
      }
      if !AckMatches(State(), b, session, fence) {
        return None;
      }
      var lease := bindings[b].lease;
      MarkFailed(b, session);
      if lease !in leases {
        return None;
      }
      if leases[lease].state !in SETTLED {
        leases := leases[lease := leases[lease].(state := Failed)];
      }
      assert State() == FailedAck(old(State()), b, session, fence).k;
      return Some(EffectsOf(State(), Fence, lease));
    }

    /* ---------- machines and node states ---------- */

    method SetAgentSession(m: NodeId, session: nat) returns (reply: Reply)
      modifies this`sessions
      ensures Meets(reply, old(State()), State(), AgentSession(old(State()), m, session))
    {
      if !IsClass(graph, m, MACHINE) {
        return None;
      }
      if m in sessions && session < sessions[m] {
        return None;
      }
      sessions := sessions[m := session];
      return Some({Reconcile(m, session, epoch, LiveMachineBindings(State(), m))});
    }

    method SetNodeHealth(n: NodeId, health: string) returns (reply: Reply)
      modifies this`graph
      ensures Meets(reply, old(State()), State(), Observe(old(State()), n, health))
    {
      var observed := SetObservation(graph, n, HEALTH, health);
      if observed.None? {
        return None;
      }
      graph := observed.value;
      return Some({});
    }

    method HasLiveAuthority(n: NodeId) returns (busy: bool)
      ensures busy <==> LiveAuthority(State(), n)
    {
      if OpenBindingUnder(State(), n) {
        return true;
      }
      var occ := Occ(leases, bindings);
      return exists l | l in occ && l in leases :: ClaimsUnder(graph, leases[l].claims, n);
    }

    method SetNodeState(n: NodeId, s: NodeState) returns (reply: Reply)
      modifies this`nodeStates
      ensures Meets(reply, old(State()), State(), SetNode(old(State()), n, s))
    {
      if n !in graph.nodes {
        return None;
      }
      var current := NodeStateOf(State(), n);
      if current == Retired && s != Retired {
        return None;
      }
      if s == Schedulable && current != Schedulable && current != Draining && OpenBindingUnder(State(), n) {
        return None;
      }
      if s == Retired {
        var busy := HasLiveAuthority(n);
        if busy {
          return None;
        }
      }
      nodeStates := if s == Schedulable then nodeStates - {n} else nodeStates[n := s];
      return Some({});
    }

    method UnquarantineNode(n: NodeId) returns (reply: Reply)
      modifies this`nodeStates
      ensures Meets(reply, old(State()), State(), Unquarantine(old(State()), n))
    {
      if n !in graph.nodes {
        return None;
      }
      if NodeStateOf(State(), n) != Quarantined {
        return Some({});
      }
      reply := SetNodeState(n, Schedulable);
    }

    method RebindSession(b: BindingId, session: nat) returns (reply: Reply)
      modifies this`bindings
      ensures Meets(reply, old(State()), State(), Rebind(old(State()), b, session))
    {
      if b !in bindings || SessionOf(State(), bindings[b].node) != Some(session) {
        return None;
      }
      bindings := bindings[b := bindings[b].(session := session)];
      return Some({});
    }

    method AdvanceEndpointFence(n: NodeId, p: ProviderId, fence: nat) returns (reply: Reply)
      modifies this`lastFence
      ensures Meets(reply, old(State()), State(), AdvanceFence(old(State()), n, p, fence))
    {
      if n !in graph.nodes || fence == 0 {
        return None;
      }
      if (p, n) !in lastFence {
        lastFence := lastFence[(p, n) := 0];
      }
      if fence > lastFence[(p, n)] {
        lastFence := lastFence[(p, n) := fence];
      }
      return Some({});
    }

    /* ---------- every command ---------- */

    method DispatchFacts(c: Command) returns (reply: Reply)
      requires Valid() && ChangesGraph(c)
      modifies this`graph
      ensures Meets(reply, old(State()), State(), Step(old(State()), c))
    {
      hide Inv, Meets, Install, Adopt, ApplyUnowned, ApplyResourceFacts, ApplyProviderFacts, Observe;
      match c
      case ApplyGraphCmd(nodes, edges) => reply := ApplyGraphFacts(nodes, edges);
      case ApplyResourceFactsCmd(nodes, edges, updates) => reply := ApplyResources(nodes, edges, updates);
      case ApplyProviderFactsCmd(batches, updates) => reply := ApplyProviders(batches, updates);
      case AdoptFactWritersCmd(assignments) => reply := AdoptWriters(assignments);
      case SetNodeHealth(n, health) => reply := SetNodeHealth(n, health);
    }

    method DispatchLease(c: Command) returns (reply: Reply)
      requires Valid() && ChangesLeases(c)
      modifies this`leases
      ensures Meets(reply, old(State()), State(), Step(old(State()), c))
    {
      hide Inv, Meets, Reserve, Promote, Open, ActivateLeaseStep, Fail, ReleaseLeaseStep, Complete, Revoke, Expire,
           Renew;
      match c
      case ReserveLease(_, _, _, _, _, _) => reply := ReserveLease(c);
      case PromoteLease(l, deadline) => reply := PromoteLease(l, deadline);
      case OpenLease(_, _, _, _, _, _, _, _) => reply := OpenLease(c);
      case ActivateLease(l) => reply := ActivateLease(l);
      case FailLease(l) => reply := FailLease(l);
      case ReleaseLease(l) => reply := ReleaseLease(l);
      case CompleteLease(l, code) => reply := CompleteLease(l, code);
      case RevokeLease(l) => reply := RevokeLease(l);
      case ExpireLease(l) => reply := ExpireLease(l);
      case RenewLease(l, at) => reply := RenewLease(l, at);
    }

    method DispatchBinding(c: Command) returns (reply: Reply)
      requires Valid() && !ChangesGraph(c) && !ChangesLeases(c) && !ChangesNodeState(c)
      modifies this`leases, this`bindings, this`sessions, this`lastFence
      ensures Meets(reply, old(State()), State(), Step(old(State()), c))
    {
      hide Inv, Bind, ActivateBindingStep, FailBindingStep, PreparedAck, ActiveAck, ClosedAck, FailedAck;
      hide AgentSession, SetNode, Unquarantine, Rebind, AdvanceFence, EffectFor;
      match c
      case OpenBinding(_, _, _, _, _) => reply := OpenBinding(c);
      case ActivateBinding(b) => reply := ActivateBinding(b);
      case FenceBinding(b) =>
        reply := if b !in bindings then None
                 else Some(if bindings[b].state.BReleased? then {} else {EffectFor(State(), Fence, b)});
      case FailBinding(b) => reply := FailBinding(b);
      case ReleaseBinding(b) =>
        reply := if b !in bindings then None
                 else Some(if bindings[b].state.BFenced? then {} else {EffectFor(State(), Release, b)});
      case RecordPrepared(b, session, handle, fence) => reply := RecordPrepared(b, session, handle, fence);
      case RecordActive(b, session, fence) => reply := RecordActive(b, session, fence);
      case RecordReleased(b, session, fence) => reply := RecordClosed(b, session, fence, BReleased);
      case RecordFenced(b, session, fence) => reply := RecordClosed(b, session, fence, BFenced);
      case RecordFailed(b, session, fence) => reply := RecordFailed(b, session, fence);
      case RebindSession(b, session) => reply := RebindSession(b, session);
      case SetAgentSession(m, session) => reply := SetAgentSession(m, session);
      case AdvanceEndpointFence(n, p, fence) => reply := AdvanceEndpointFence(n, p, fence);
    }

    method DispatchNode(c: Command) returns (reply: Reply)
      requires Valid() && ChangesNodeState(c)
      modifies this`nodeStates
      ensures Meets(reply, old(State()), State(), Step(old(State()), c))
    {
      hide Inv, Meets, Install, ApplyUnowned, ApplyResourceFacts, ApplyProviderFacts, Adopt, Reserve, Promote, Open;
      hide ActivateLeaseStep, Fail, ReleaseLeaseStep, Complete, Revoke, Expire, Renew;
      hide Bind, ActivateBindingStep, FailBindingStep, PreparedAck, ActiveAck, ClosedAck, FailedAck;
      hide AgentSession, SetNode, Unquarantine, Rebind, AdvanceFence, EffectFor;
      match c
      case SetNodeState(n, s) => reply := SetNodeState(n, s);
      case QuarantineNode(n) => reply := SetNodeState(n, Quarantined);
      case UnquarantineNode(n) => reply := UnquarantineNode(n);
    }

    /** One command: it is accepted exactly when the transition function accepts it, and
        then logged; a refused command changes nothing, not even the log. Either way the
        invariant survives. */
    method Apply(c: Command) returns (reply: Reply)
      requires Valid()
      modifies this
      ensures Valid()
      ensures Meets(reply, old(State()), State(), Step(old(State()), c))
      ensures log == if reply.Some? then old(log) + [c] else old(log)
      ensures reply.None? ==> State() == old(State())
    {
      ghost var k := State();
      hide Inv, Step;
      if ChangesGraph(c) {
        reply := DispatchFacts(c);
      } else if ChangesLeases(c) {
        reply := DispatchLease(c);
      } else if ChangesNodeState(c) {
        reply := DispatchNode(c);
      } else {
        reply := DispatchBinding(c);
      }
      if Step(k, c).Accepted? {
        StepKeeps(k, c);
      }
      if reply.Some? {
        log := log + [c];
      }
    }

    /** Replays a command log into a fresh cluster. */
    static method ReplayLog(commands: seq<Command>) returns (r: Cluster?)
      ensures r == null <==> ReplayFrom(ReplayStart(), commands).None?
      ensures r != null ==> fresh(r) && r.Valid() && SameDecisions(r.State(), ReplayFrom(ReplayStart(), commands).value)
    {
      hide Inv, Step;
      var cluster := new Cluster();
      cluster.SetReplaying(true);
      SameDecisionsKeep(Initial(), cluster.State());
      for i := 0 to |commands|
        invariant fresh(cluster) && cluster.Valid()
        invariant ReplayFrom(ReplayStart(), commands[..i]) == Some(cluster.State())
      {
        assert commands[..i + 1][..i] == commands[..i];
        var reply := cluster.Apply(commands[i]);
        if reply.None? {
          ReplayRefusal(commands, i + 1);
          return null;
        }
      }
      assert commands[..|commands|] == commands;
      ghost var k := cluster.State();
      cluster.SetReplaying(false);
      SameDecisionsKeep(k, cluster.State());
      return cluster;
    }
  }

  lemma {:induction false} ReplayRefusal(log: seq<Command>, n: nat)
    requires n <= |log| && ReplayFrom(ReplayStart(), log[..n]).None?
    ensures ReplayFrom(ReplayStart(), log).None?
  {
    hide Step, ReplayStart;
    if n == |log| {
      assert log[..n] == log;
    } else {
      var prefix := log[..|log| - 1];
      assert prefix[..n] == log[..n];
      ReplayRefusal(prefix, n);
    }
  }

  /** Nothing is delegated from an unknown lease, so ending below it changes nothing;
      and a lease is never below itself, so ending below it leaves it alone. */
  lemma TopOfCascade(k: Kernel, id: LeaseId, s: LeaseState, kept: set<LeaseState>)
    requires Inv(k)
    ensures var down := CascadeLeases(k.leases, id, s, kept);
            down.Keys == k.leases.Keys && (if id in k.leases then down[id] == k.leases[id] else down == k.leases)
  {
    CascadeDomain(k.leases, id, s, kept);
    NotBelowItself(k.leases, id);
    if id !in k.leases {
      forall l | l in k.leases
        ensures !Below(k.leases, l, id)
      {
        if Below(k.leases, l, id) {
          BelowHasChild(k.leases, l, id);
        }
      }
    }
  }

  lemma RevokeIs(k: Kernel, id: LeaseId)
    requires Inv(k)
    ensures Revoke(k, id) ==
            if id !in k.leases then Rejected
            else Accepted(k.(leases := Ending(CascadeLeases(k.leases, id, Revoked, SETTLED), id, Revoked, SETTLED)),
                          BelowFences(k, id) + EffectsOf(k, Fence, id))
  {
    TopOfCascade(k, id, Revoked, SETTLED);
    hide Inv, CascadeLeases, EffectsOf, BelowFences;
  }

  lemma NoneListed(listed: seq<LeaseId>)
    ensures Elements(listed[..0]) == {} && listed[..|listed|] == listed
  {
  }

  lemma NextListed(listed: seq<LeaseId>, i: nat)
    requires Distinct(listed) && i < |listed|
    ensures listed[i] !in Elements(listed[..i]) && Elements(listed[..i + 1]) == Elements(listed[..i]) + {listed[i]}
    ensures listed[i] in Elements(listed)
  {
  }

  lemma EffectsIgnoreLeases(k: Kernel, leases: Leases, op: Op, l: LeaseId)
    ensures EffectsOf(k.(leases := leases), op, l) == EffectsOf(k, op, l)
  {
  }

  lemma SoundBindings(k: Kernel)
    requires Inv(k)
    ensures BindingsSound(k.leases, k.bindings)
  {
  }
}
