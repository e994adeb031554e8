/** Whole runs of the authority kernel: what holds in every reachable state, what no
    step ever takes back, and what replaying the log rebuilds. */
module Runs {
  import opened Forest
  import opened Quantities
  import opened ResourceGraph
  import opened Facts
  import opened Occupancy
  import opened Kernel
  import opened Authority

  /** A command, or a change of the clock, the agreement, the epoch or the replay mode;
      these four live outside the command log. */
  datatype Event =
    | Cmd(c: Command) | SetNow(now: nat) | SetAgreement(agreed: bool) | AdvanceEpoch | SetReplaying(on: bool)

  ghost function After(k: Kernel, e: Event): Kernel {
    match e
    case Cmd(c) => if Step(k, c).Accepted? then Step(k, c).k else k
    case SetNow(now) => k.(now := now)
    case SetAgreement(agreed) => k.(agreed := agreed)
    case AdvanceEpoch => k.(epoch := Successor(k.epoch))
    case SetReplaying(on) => k.(replaying := on)
  }

  ghost function Run(k: Kernel, events: seq<Event>): Kernel {
    if events == [] then k else After(Run(k, events[..|events| - 1]), events[|events| - 1])
  }

  /** Two kernels that took the same decisions. */
  ghost predicate SameDecisions(a: Kernel, b: Kernel) {
    a.graph == b.graph && a.leases == b.leases && a.bindings == b.bindings && a.sessions == b.sessions
    && a.lastFence == b.lastFence && a.nodeStates == b.nodeStates
  }

  lemma SameDecisionsKeep(a: Kernel, b: Kernel)
    requires Inv(a) && SameDecisions(a, b)
    ensures Inv(b)
  {
  }

  lemma AfterKeeps(k: Kernel, e: Event)
    requires Inv(k)
    ensures Inv(After(k, e))
  {
    hide Inv;
    if e.Cmd? {
      if Step(k, e.c).Accepted? {
        StepKeeps(k, e.c);
      }
    } else {
      SameDecisionsKeep(k, After(k, e));
    }
  }

  /** The invariant holds in every state any sequence of events can reach. */
  lemma {:induction false} RunKeeps(k: Kernel, events: seq<Event>)
    requires Inv(k)
    ensures Inv(Run(k, events))
  {
    hide Inv, After;
    if events != [] {
      RunKeeps(k, events[..|events| - 1]);
      AfterKeeps(Run(k, events[..|events| - 1]), events[|events| - 1]);
    }
  }

  /* ---------- capacity ---------- */

  /** In every reachable state, on every node and in every dimension: the charged
      leases fit the capacity, the occupying children of any lease fit its claims, and
      no sum over some of the charged leases passes the largest u64. Sums over children and
      sums with leases left out are the subject of `Projections`. */
  lemma CapacityIsNeverExceeded(events: seq<Event>, n: NodeId, d: Dimension, p: LeaseId, part: set<LeaseId>)
    ensures var k := Run(Initial(), events);
            var occ := Occ(k.leases, k.bindings);
            && Usage(k.leases, Roots(k.leases, occ), n, d) <= Get(CapacityOf(k.graph, n), d)
            && (p in k.leases ==> Usage(k.leases, Kids(k.leases, occ, p), n, d) <= Amount(k.leases[p].claims, n, d))
            && (part <= Roots(k.leases, occ) && Get(CapacityOf(k.graph, n), d) <= U64_MAX ==>
                  Usage(k.leases, part, n, d) <= U64_MAX)
  {
    InitialInv();
    RunKeeps(Initial(), events);
    var k := Run(Initial(), events);
    var roots := Roots(k.leases, Occ(k.leases, k.bindings));
    if part <= roots {
      UsageMonotone(k.leases, part, roots, n, d);
    }
  }

  /* ---------- what no step takes back ---------- */

  function Progress(s: LeaseState): nat {
    match s
    case Reserved => 0
    case Preparing => 1
    case Active => 2
    case Completed => 3
    case _ => 4
  }

  /** A lease keeps its terms; its state only advances, and once it is failed, released,
      revoked or expired it never changes again. */
  predicate LeaseLater(x: Lease, y: Lease) {
    && y.owner == x.owner && y.parent == x.parent && y.claims == x.claims && y.priority == x.priority
    && Progress(x.state) <= Progress(y.state)
    && (x.state in SETTLED ==> y.state == x.state)
    && x.expiresAt <= y.expiresAt
  }

  ghost predicate Stable(k: Kernel, k': Kernel) {
    && (forall l :: l in k.leases ==> l in k'.leases && LeaseLater(k.leases[l], k'.leases[l]))
    && (forall b :: b in k.bindings ==> b in k'.bindings && Later(k.bindings[b], k'.bindings[b]))
    && (forall m :: m in k.sessions ==> m in k'.sessions && k.sessions[m] <= k'.sessions[m])
    && (forall p, n :: Watermark(k.lastFence, p, n) <= Watermark(k'.lastFence, p, n))
    && (forall n :: n in k.graph.nodes ==> n in k'.graph.nodes)
    && k.graph.revision <= k'.graph.revision
    && (forall n :: n in k.nodeStates && k.nodeStates[n] == Retired ==>
        n in k'.nodeStates && k'.nodeStates[n] == Retired)
  }

  lemma StableTransitive(a: Kernel, b: Kernel, c: Kernel)
    requires Stable(a, b) && Stable(b, c)
    ensures Stable(a, c)
  {
  }

  lemma FactsStable(k: Kernel, staged: Option<Graph>)
    requires Updates(k.graph, staged) && Install(k, staged).Accepted?
    ensures Stable(k, Install(k, staged).k)
  {
  }

  lemma ApplyGraphStable(k: Kernel, nodes: seq<Node>, edges: seq<Edge>)
    requires WellFormed(k.graph) && Install(k, ApplyUnowned(k.graph, nodes, edges)).Accepted?
    ensures Stable(k, Install(k, ApplyUnowned(k.graph, nodes, edges)).k)
  {
    hide WellFormed, ApplyUnowned, Stable, Install;
    ApplyUnownedKeeps(k.graph, nodes, edges);
    FactsStable(k, ApplyUnowned(k.graph, nodes, edges));
  }

  lemma ResourceFactsStable(k: Kernel, nodes: seq<Node>, edges: seq<Edge>, updates: seq<ClaimBindingUpdate>)
    requires WellFormed(k.graph) && Install(k, ApplyResourceFacts(k.graph, nodes, edges, updates)).Accepted?
    ensures Stable(k, Install(k, ApplyResourceFacts(k.graph, nodes, edges, updates)).k)
  {
    hide WellFormed, ApplyResourceFacts, Stable, Install;
    ApplyResourceFactsKeeps(k.graph, nodes, edges, updates);
    FactsStable(k, ApplyResourceFacts(k.graph, nodes, edges, updates));
  }

  lemma ProviderFactsStable(k: Kernel, batches: seq<FactBatch>, updates: seq<ClaimBindingUpdate>)
    requires WellFormed(k.graph) && Install(k, ApplyProviderFacts(k.graph, batches, updates)).Accepted?
    ensures Stable(k, Install(k, ApplyProviderFacts(k.graph, batches, updates)).k)
  {
    hide WellFormed, ApplyProviderFacts, Stable, Install;
    ApplyProviderFactsKeeps(k.graph, batches, updates);
    FactsStable(k, ApplyProviderFacts(k.graph, batches, updates));
  }

  lemma SameFactsStable(k: Kernel, g: Graph)
    requires SameTopology(k.graph, g) && g.revision == k.graph.revision
    ensures Stable(k, k.(graph := g))
  {
  }

  lemma AdoptStable(k: Kernel, assignments: seq<WriterAssignment>)
    requires Adopt(k, assignments).Accepted?
    ensures Stable(k, Adopt(k, assignments).k)
  {
    hide Stable;
    AdoptedKeeps(k.graph, assignments);
    SameFactsStable(k, Adopted(k.graph, assignments));
  }

  lemma ObserveStable(k: Kernel, n: NodeId, health: string)
    requires Observe(k, n, health).Accepted?
    ensures Stable(k, Observe(k, n, health).k)
  {
  }

  ghost predicate OnlyLeases(k: Kernel, k': Kernel) {
    k' == k.(leases := k'.leases)
  }

  lemma LeasesStable(k: Kernel, k': Kernel)
    requires OnlyLeases(k, k')
    requires forall l :: l in k.leases ==> l in k'.leases && LeaseLater(k.leases[l], k'.leases[l])
    ensures Stable(k, k')
  {
  }

  lemma CascadeStable(k: Kernel, id: LeaseId, s: LeaseState, kept: set<LeaseState>, y: Lease)
    requires id in k.leases && Progress(s) >= 3 && SETTLED <= kept && (s == Completed ==> Completed in kept)
    requires LeaseLater(k.leases[id], y)
    ensures Stable(k, k.(leases := CascadeLeases(k.leases, id, s, kept)[id := y]))
  {
    hide Below;
    CascadeDomain(k.leases, id, s, kept);
  }

  lemma NewStateStable(k: Kernel, id: LeaseId, s: LeaseState, kept: set<LeaseState>, t: LeaseState)
    requires id in k.leases && Progress(s) >= 3 && SETTLED <= kept && (s == Completed ==> Completed in kept)
    requires LeaseLater(k.leases[id], k.leases[id].(state := t))
    ensures Stable(k, SetState(Cascade(k, id, s, kept), id, t))
  {
    CascadeDomain(k.leases, id, s, kept);
    NotBelowItself(k.leases, id);
    hide Below;
    CascadeStable(k, id, s, kept, k.leases[id].(state := t));
  }

  lemma KeptStateStable(k: Kernel, id: LeaseId, s: LeaseState)
    requires id in k.leases && (s == Failed || s == Revoked)
    ensures Stable(k, Cascade(k, id, s, SETTLED))
  {
    CascadeDomain(k.leases, id, s, SETTLED);
    NotBelowItself(k.leases, id);
    hide Below;
    CascadeStable(k, id, s, SETTLED, k.leases[id]);
    var down := CascadeLeases(k.leases, id, s, SETTLED);
    assert down[id := k.leases[id]] == down;
  }

  lemma ReserveStable(k: Kernel, c: Command)
    requires c.ReserveLease? && Reserve(k, c).Accepted?
    ensures Stable(k, Reserve(k, c).k)
  {
    hide Stable, Admissible, CoversAll;
    LeasesStable(k, Reserve(k, c).k);
  }

  lemma PromoteStable(k: Kernel, id: LeaseId, deadline: nat)
    requires ClaimsSound(k.graph, k.leases) && Promote(k, id, deadline).Accepted?
    ensures Stable(k, Promote(k, id, deadline).k)
  {
    ResolveIsStable(k.graph, k.leases[id].claims);
    hide Stable, ClaimsSound, CoversAll;
    LeasesStable(k, Promote(k, id, deadline).k);
  }

  lemma OpenStable(k: Kernel, c: Command)
    requires c.OpenLease? && Open(k, c).Accepted?
    ensures Stable(k, Open(k, c).k)
  {
    hide Stable, Admissible, CoversAll, FitsParent;
    LeasesStable(k, Open(k, c).k);
  }

  lemma ActivateLeaseStable(k: Kernel, id: LeaseId)
    requires ActivateLeaseStep(k, id).Accepted?
    ensures Stable(k, ActivateLeaseStep(k, id).k)
  {
    assert k.leases[id].state == Active || k.leases[id].state == Preparing;
    hide Stable, MayActivate;
    LeasesStable(k, ActivateLeaseStep(k, id).k);
  }

  lemma FailStable(k: Kernel, id: LeaseId)
    requires Fail(k, id).Accepted?
    ensures Stable(k, Fail(k, id).k)
  {
    hide Stable, Below, CascadeLeases;
    KeptStateStable(k, id, Failed);
    NewStateIfLive(k, id, Failed);
  }

  lemma RevokeStable(k: Kernel, id: LeaseId)
    requires Revoke(k, id).Accepted?
    ensures Stable(k, Revoke(k, id).k)
  {
    hide Stable, Below, CascadeLeases;
    KeptStateStable(k, id, Revoked);
    NewStateIfLive(k, id, Revoked);
  }

  lemma ExpireStable(k: Kernel, id: LeaseId)
    requires Expire(k, id).Accepted?
    ensures Stable(k, Expire(k, id).k)
  {
    hide Stable, Below, CascadeLeases;
    LeasesStable(k, k);
    NewStateIfLive(k, id, Expired);
  }

  lemma ReleaseLeaseStable(k: Kernel, id: LeaseId)
    requires ReleaseLeaseStep(k, id).Accepted?
    ensures Stable(k, ReleaseLeaseStep(k, id).k)
  {
    hide Stable, HasLiveBelow;
    LeasesStable(k, ReleaseLeaseStep(k, id).k);
  }

  lemma RenewStable(k: Kernel, id: LeaseId, at: nat)
    requires Renew(k, id, at).Accepted?
    ensures Stable(k, Renew(k, id, at).k)
  {
    hide Stable;
    LeasesStable(k, Renew(k, id, at).k);
  }

  lemma NewStateIfLive(k: Kernel, id: LeaseId, s: LeaseState)
    requires id in k.leases && (s == Failed || s == Revoked || s == Expired)
    ensures k.leases[id].state !in SETTLED ==> Stable(k, SetState(Cascade(k, id, s, SETTLED), id, s))
  {
    hide Below, Stable, CascadeLeases;
    if k.leases[id].state !in SETTLED {
      NewStateStable(k, id, s, SETTLED, s);
    }
  }

  lemma CompleteStable(k: Kernel, id: LeaseId, code: int)
    requires Complete(k, id, code).Accepted?
    ensures Stable(k, Complete(k, id, code).k)
  {
    hide Below, Stable, CascadeLeases;
    var final := if code == 0 then Completed else Failed;
    if k.leases[id].state == Completed || k.leases[id].state == Failed {
      LeasesStable(k, k);
    } else {
      CascadeStable(k, id, final, SETTLED + {Completed}, k.leases[id].(state := final, exitCode := Some(code)));
    }
  }

  lemma BindingsStable(k: Kernel, k': Kernel)
    requires k' == k.(bindings := k'.bindings, lastFence := k'.lastFence, leases := k'.leases)
    requires forall l :: l in k.leases ==> l in k'.leases && LeaseLater(k.leases[l], k'.leases[l])
    requires forall b :: b in k.bindings ==> b in k'.bindings && Later(k.bindings[b], k'.bindings[b])
    requires forall p, n :: Watermark(k.lastFence, p, n) <= Watermark(k'.lastFence, p, n)
    ensures Stable(k, k')
  {
  }

  lemma BindStable(k: Kernel, c: Command)
    requires c.OpenBinding? && Bind(k, c).Accepted?
    ensures Stable(k, Bind(k, c).k)
  {
    hide Stable, MayBind;
    BindingsStable(k, Bind(k, c).k);
  }

  lemma UpdateStable(k: Kernel, b: BindingId, k': Kernel)
    requires b in k.bindings
    requires k' == k || exists y :: k' == SetBinding(k, b, y) && Later(k.bindings[b], y)
    ensures Stable(k, k')
  {
  }

  lemma AckStable(k: Kernel, b: BindingId, session: nat, handle: nat, fence: nat, s: BindingState)
    requires Closed(s)
    ensures PreparedAck(k, b, session, handle, fence).Accepted? ==>
              Stable(k, PreparedAck(k, b, session, handle, fence).k)
    ensures ActiveAck(k, b, session, fence).Accepted? ==> Stable(k, ActiveAck(k, b, session, fence).k)
    ensures ClosedAck(k, b, session, fence, s).Accepted? ==> Stable(k, ClosedAck(k, b, session, fence, s).k)
  {
    hide Stable;
    if AckMatches(k, b, session, fence) {
      hide AckMatches;
      UpdateStable(k, b, SetBinding(k, b, k.bindings[b].(handle := Some(handle), session := session)));
      UpdateStable(k, b, SetBinding(k, b, k.bindings[b].(session := session)));
      UpdateStable(k, b, SetBinding(k, b, k.bindings[b].(session := session, state := s)));
    }
  }

  lemma FailedAckStable(k: Kernel, b: BindingId, session: nat, fence: nat)
    requires FailedAck(k, b, session, fence).Accepted?
    ensures Stable(k, FailedAck(k, b, session, fence).k)
  {
    hide Stable, SessionOf, EffectsOf;
    var x := k.bindings[b];
    var k1 := SetBinding(k, b, x.(session := session, state := if Closed(x.state) then x.state else BFailed));
    UpdateStable(k, b, k1);
    if k.leases[x.lease].state !in SETTLED {
      LeasesStable(k1, SetState(k1, x.lease, Failed));
      StableTransitive(k, k1, SetState(k1, x.lease, Failed));
    }
  }

  lemma BindingDriveStable(k: Kernel, b: BindingId, session: nat)
    ensures ActivateBindingStep(k, b).Accepted? ==> Stable(k, ActivateBindingStep(k, b).k)
    ensures FailBindingStep(k, b).Accepted? ==> Stable(k, FailBindingStep(k, b).k)
    ensures Rebind(k, b, session).Accepted? ==> Stable(k, Rebind(k, b, session).k)
  {
    hide Stable, SessionOf;
    if b in k.bindings {
      var x := k.bindings[b];
      UpdateStable(k, b, k);
      if !Closed(x.state) {
        UpdateStable(k, b, SetBinding(k, b, x.(state := BActive)));
        UpdateStable(k, b, SetBinding(k, b, x.(state := BFailed)));
      }
      UpdateStable(k, b, SetBinding(k, b, x.(session := session)));
    }
  }

  lemma AdvanceFenceStable(k: Kernel, n: NodeId, p: ProviderId, fence: nat)
    requires AdvanceFence(k, n, p, fence).Accepted?
    ensures Stable(k, AdvanceFence(k, n, p, fence).k)
  {
  }

  lemma AgentSessionStable(k: Kernel, m: NodeId, session: nat)
    requires AgentSession(k, m, session).Accepted?
    ensures Stable(k, AgentSession(k, m, session).k)
  {
  }

  lemma SetNodeStable(k: Kernel, n: NodeId, s: NodeState)
    requires SetNode(k, n, s).Accepted?
    ensures Stable(k, SetNode(k, n, s).k)
  {
  }

  ghost predicate ConcernsBindings(c: Command) {
    !(c.ApplyGraphCmd? || c.ApplyResourceFactsCmd? || c.ApplyProviderFactsCmd? || c.AdoptFactWritersCmd?
      || c.ReserveLease? || c.PromoteLease? || c.OpenLease? || c.ActivateLease? || c.FailLease? || c.ReleaseLease?
      || c.CompleteLease? || c.RevokeLease? || c.ExpireLease? || c.RenewLease?)
  }

  lemma BindingStepStable(k: Kernel, c: Command)
    requires ConcernsBindings(c) && Step(k, c).Accepted?
    ensures Stable(k, Step(k, c).k)
  {
    hide Stable, Bind, ActivateBindingStep, FailBindingStep, PreparedAck, ActiveAck, ClosedAck, FailedAck;
    hide AgentSession, Observe, SetNode, Rebind, AdvanceFence;
    LeasesStable(k, k);
    match c
    case OpenBinding(_, _, _, _, _) => BindStable(k, c);
    case ActivateBinding(b) => BindingDriveStable(k, b, 0);
    case FenceBinding(b) =>
    case FailBinding(b) => BindingDriveStable(k, b, 0);
    case ReleaseBinding(b) =>
    case RecordPrepared(b, session, handle, fence) => AckStable(k, b, session, handle, fence, BFenced);
    case RecordActive(b, session, fence) => AckStable(k, b, session, 0, fence, BFenced);
    case RecordReleased(b, session, fence) => AckStable(k, b, session, 0, fence, BReleased);
    case RecordFenced(b, session, fence) => AckStable(k, b, session, 0, fence, BFenced);
    case RecordFailed(b, session, fence) => FailedAckStable(k, b, session, fence);
    case SetAgentSession(m, session) => AgentSessionStable(k, m, session);
    case SetNodeHealth(n, health) => ObserveStable(k, n, health);
    case SetNodeState(n, s) => SetNodeStable(k, n, s);
    case RebindSession(b, session) => BindingDriveStable(k, b, session);
    case AdvanceEndpointFence(n, p, fence) => AdvanceFenceStable(k, n, p, fence);
    case QuarantineNode(n) => SetNodeStable(k, n, Quarantined);
    case UnquarantineNode(n) =>
      if NodeStateOf(k, n) == Quarantined {
        SetNodeStable(k, n, Schedulable);
      }
  }

  lemma FactsOf(k: Kernel)
    requires Inv(k)
    ensures WellFormed(k.graph) && ClaimsSound(k.graph, k.leases)
  {
  }

  /** No accepted command takes back an ended lease, a closed binding, a prepare
      acknowledgement, a session, a fence, a node or a retirement. */
  lemma StepStable(k: Kernel, c: Command)
    requires Inv(k) && Step(k, c).Accepted?
    ensures Stable(k, Step(k, c).k)
  {
    hide Inv, Step, Stable;
    if c.ApplyGraphCmd? || c.ApplyResourceFactsCmd? || c.ApplyProviderFactsCmd? || c.AdoptFactWritersCmd? {
      GraphStepStable(k, c);
    } else if ConcernsBindings(c) {
      BindingStepStable(k, c);
    } else {
      LeaseStepStable(k, c);
    }
  }

  lemma GraphStepStable(k: Kernel, c: Command)
    requires Inv(k) && Step(k, c).Accepted?
    requires c.ApplyGraphCmd? || c.ApplyResourceFactsCmd? || c.ApplyProviderFactsCmd? || c.AdoptFactWritersCmd?
    ensures Stable(k, Step(k, c).k)
  {
    hide Inv, WellFormed, ClaimsSound, Stable, Install, ApplyUnowned, ApplyResourceFacts, ApplyProviderFacts, Adopt;
    FactsOf(k);
    match c
    case ApplyGraphCmd(nodes, edges) => ApplyGraphStable(k, nodes, edges);
    case ApplyResourceFactsCmd(nodes, edges, updates) => ResourceFactsStable(k, nodes, edges, updates);
    case ApplyProviderFactsCmd(batches, updates) => ProviderFactsStable(k, batches, updates);
    case AdoptFactWritersCmd(assignments) => AdoptStable(k, assignments);
  }

  lemma LeaseStepStable(k: Kernel, c: Command)
    requires Inv(k) && Step(k, c).Accepted?
    requires c.ReserveLease? || c.PromoteLease? || c.OpenLease? || c.ActivateLease? || c.FailLease? || c.ReleaseLease?
             || c.CompleteLease? || c.RevokeLease? || c.ExpireLease? || c.RenewLease?
    ensures Stable(k, Step(k, c).k)
  {
    hide Inv, WellFormed, ClaimsSound, Stable;
    hide Install, ApplyUnowned, ApplyResourceFacts, ApplyProviderFacts, Adopt, Reserve, Promote, Open;
    hide ActivateLeaseStep, Fail, ReleaseLeaseStep, Complete, Revoke, Expire, Renew, Bind, ActivateBindingStep;
    hide FailBindingStep, PreparedAck, ActiveAck, ClosedAck, FailedAck, AgentSession, Observe, SetNode, Rebind;
    hide AdvanceFence;
    FactsOf(k);
    match c
    case ReserveLease(_, _, _, _, _, _) => ReserveStable(k, c);
    case PromoteLease(l, deadline) => PromoteStable(k, l, deadline);
    case OpenLease(_, _, _, _, _, _, _, _) => OpenStable(k, c);
    case ActivateLease(l) => ActivateLeaseStable(k, l);
    case FailLease(l) => FailStable(k, l);
    case ReleaseLease(l) => ReleaseLeaseStable(k, l);
    case CompleteLease(l, code) => CompleteStable(k, l, code);
    case RevokeLease(l) => RevokeStable(k, l);
    case ExpireLease(l) => ExpireStable(k, l);
    case RenewLease(l, at) => RenewStable(k, l, at);
  }

  lemma AfterStable(k: Kernel, e: Event)
    requires Inv(k)
    ensures Stable(k, After(k, e))
  {
    if e.Cmd? {
      hide Inv, Stable, Step;
      LeasesStable(k, k);
      if Step(k, e.c).Accepted? {
        StepStable(k, e.c);
      }
    } else {
      hide Inv, Step;
    }
  }

  /** The same over whole runs. */
  lemma {:induction false} RunStable(k: Kernel, events: seq<Event>)
    requires Inv(k)
    ensures Stable(k, Run(k, events))
  {
    hide Inv, Stable, After;
    if events == [] {
      LeasesStable(k, k);
    } else {
      var before, e := Run(k, events[..|events| - 1]), events[|events| - 1];
      RunStable(k, events[..|events| - 1]);
      RunKeeps(k, events[..|events| - 1]);
      AfterStable(before, e);
      StableTransitive(k, before, After(before, e));
    }
  }

  /* ---------- what every reachable state looks like ---------- */

  /** Facts: containment is a forest and every derived index agrees with the stored facts. */
  lemma ReachableGraph(events: seq<Event>)
    ensures WellFormed(Run(Initial(), events).graph) && ChildrenListed(Run(Initial(), events).graph)
  {
    InitialInv();
    RunKeeps(Initial(), events);
    WellFormedListsChildren(Run(Initial(), events).graph);
  }

  /** Two bindings open at one endpoint are both independent shares; exclusive fences at an
      endpoint never repeat and never pass its watermark. */
  lemma ExclusiveAlone(events: seq<Event>, a: BindingId, b: BindingId)
    ensures var k := Run(Initial(), events);
            a in k.bindings && b in k.bindings && a != b && SameEndpoint(k.bindings[a], k.bindings[b]) ==>
              && (!Closed(k.bindings[a].state) && !Closed(k.bindings[b].state) ==>
                    k.bindings[a].scope == IndependentShare && k.bindings[b].scope == IndependentShare)
              && (k.bindings[a].scope == Exclusive ==>
                    k.bindings[a].fence <= Watermark(k.lastFence, k.bindings[a].provider, k.bindings[a].node))
              && (k.bindings[a].scope == Exclusive && k.bindings[b].scope == Exclusive ==>
                    k.bindings[a].fence != k.bindings[b].fence)
  {
    hide *;
    InitialInv();
    RunKeeps(Initial(), events);
    ExclusiveAloneIn(Run(Initial(), events), a, b);
  }

  lemma ExclusiveAloneIn(k: Kernel, a: BindingId, b: BindingId)
    requires Inv(k)
    ensures a in k.bindings && b in k.bindings && a != b && SameEndpoint(k.bindings[a], k.bindings[b]) ==>
              && (!Closed(k.bindings[a].state) && !Closed(k.bindings[b].state) ==>
                    k.bindings[a].scope == IndependentShare && k.bindings[b].scope == IndependentShare)
              && (k.bindings[a].scope == Exclusive ==>
                    k.bindings[a].fence <= Watermark(k.lastFence, k.bindings[a].provider, k.bindings[a].node))
              && (k.bindings[a].scope == Exclusive && k.bindings[b].scope == Exclusive ==>
                    k.bindings[a].fence != k.bindings[b].fence)
  {
    assert FencesSound(k.bindings, k.lastFence);
    hide Inv;
  }

  /** Whenever a root lease or one of its bindings is active, every claim of the lease has a
      binding whose prepare was acknowledged. */
  lemma ActiveMeansPrepared(events: seq<Event>, l: LeaseId, b: BindingId, i: nat)
    ensures var k := Run(Initial(), events);
            l in k.leases && i < |k.leases[l].claims|
            && ((k.leases[l].parent.None? && k.leases[l].state == Active)
                || (b in k.bindings && k.bindings[b].lease == l && k.bindings[b].state.BActive?)) ==>
              Acked(k.bindings, l, k.leases[l].claims[i].node)
  {
    InitialInv();
    RunKeeps(Initial(), events);
    hide Run;
  }

  /** An ended lease never becomes live again and a closed binding never reopens, however the
      run goes on. */
  lemma NothingComesBack(k: Kernel, events: seq<Event>, l: LeaseId, b: BindingId)
    requires Inv(k)
    ensures l in k.leases && !Live(k.leases[l].state) ==>
              l in Run(k, events).leases && !Live(Run(k, events).leases[l].state)
    ensures b in k.bindings && Closed(k.bindings[b].state) ==>
              b in Run(k, events).bindings && Closed(Run(k, events).bindings[b].state)
  {
    hide Inv;
    RunStable(k, events);
    var k' := Run(k, events);
    hide Run;
    assert l in k.leases ==> LeaseLater(k.leases[l], k'.leases[l]);
    assert b in k.bindings ==> Later(k.bindings[b], k'.bindings[b]);
  }
}
