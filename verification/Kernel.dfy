/** The authority kernel (crates/kernel/src/cluster.rs) as a transition function on
    values: what each command accepts, what it changes and which effects it emits. */
module Kernel {
  import opened Forest
  import opened Quantities
  import opened ResourceGraph
  import opened Facts
  import opened Occupancy

  type BindingId = nat

  datatype NodeState = Joining | Schedulable | Draining | Unavailable | Quarantined | Retired

  datatype BindingState = BPreparing | BActive | BReleased | BFenced | BFailed

  predicate Closed(s: BindingState) {
    s.BReleased? || s.BFenced?
  }

  datatype Binding = Binding(
    lease: LeaseId,
    node: NodeId,
    provider: ProviderId,
    scope: BindingScope,
    fence: nat,
    session: nat,
    state: BindingState,
    handle: Option<nat>)

  type Bindings = map<BindingId, Binding>

  datatype Op = Prepare | Activate | Release | Fence

  datatype Effect =
    | Drive(op: Op, binding: BindingId, node: NodeId, provider: ProviderId, fence: nat, session: nat, epoch: nat)
    | Reconcile(machine: NodeId, session: nat, epoch: nat, bindings: set<BindingId>)

  datatype Kernel = Kernel(
    epoch: nat,
    now: nat,
    agreed: bool,
    replaying: bool,
    graph: Graph,
    leases: Leases,
    bindings: Bindings,
    sessions: map<NodeId, nat>,
    lastFence: map<(ProviderId, NodeId), nat>,
    nodeStates: map<NodeId, NodeState>)

  datatype Command =
    | ApplyGraphCmd(nodes: seq<Node>, edges: seq<Edge>)
    | ApplyResourceFactsCmd(nodes: seq<Node>, edges: seq<Edge>, updates: seq<ClaimBindingUpdate>)
    | ApplyProviderFactsCmd(batches: seq<FactBatch>, updates: seq<ClaimBindingUpdate>)
    | AdoptFactWritersCmd(assignments: seq<WriterAssignment>)
    | ReserveLease(lease: LeaseId, owner: OwnerId, claims: seq<Claim>, revision: nat, expiresAt: nat, priority: nat)
    | PromoteLease(lease: LeaseId, prepareDeadline: nat)
    | OpenLease(lease: LeaseId, owner: OwnerId, claims: seq<Claim>, revision: nat, parent: Option<LeaseId>,
                expiresAt: nat, prepareDeadline: nat, priority: nat)
    | ActivateLease(lease: LeaseId)
    | FailLease(lease: LeaseId)
    | ReleaseLease(lease: LeaseId)
    | CompleteLease(lease: LeaseId, exitCode: int)
    | RevokeLease(lease: LeaseId)
    | ExpireLease(lease: LeaseId)
    | RenewLease(lease: LeaseId, newExpiresAt: nat)
    | OpenBinding(binding: BindingId, lease: LeaseId, node: NodeId, provider: ProviderId, scope: BindingScope)
    | ActivateBinding(binding: BindingId)
    | FenceBinding(binding: BindingId)
    | FailBinding(binding: BindingId)
    | ReleaseBinding(binding: BindingId)
    | RecordPrepared(binding: BindingId, session: nat, handle: nat, fence: nat)
    | RecordActive(binding: BindingId, session: nat, fence: nat)
    | RecordReleased(binding: BindingId, session: nat, fence: nat)
    | RecordFenced(binding: BindingId, session: nat, fence: nat)
    | RecordFailed(binding: BindingId, session: nat, fence: nat)
    | SetAgentSession(machine: NodeId, session: nat)
    | SetNodeHealth(node: NodeId, health: string)
    | SetNodeState(node: NodeId, state: NodeState)
    | RebindSession(binding: BindingId, session: nat)
    | AdvanceEndpointFence(node: NodeId, provider: ProviderId, fence: nat)
    | QuarantineNode(node: NodeId)
    | UnquarantineNode(node: NodeId)

  predicate ChangesGraph(c: Command) {
    c.ApplyGraphCmd? || c.ApplyResourceFactsCmd? || c.ApplyProviderFactsCmd? || c.AdoptFactWritersCmd?
      || c.SetNodeHealth?
  }

  datatype Outcome = Rejected | Accepted(k: Kernel, effects: set<Effect>)

  function Initial(): Kernel {
    Kernel(1, 0, true, false, EmptyGraph(), map[], map[], map[], map[], map[])
  }

  /* ---------- queries ---------- */

  function OpenLeases(bindings: Bindings): set<LeaseId> {
    set b | b in bindings && !Closed(bindings[b].state) :: bindings[b].lease
  }

  function OccupyingExcept(leases: Leases, bindings: Bindings, except: set<LeaseId>): set<LeaseId> {
    Occupying(leases, OpenLeases(bindings), except)
  }

  function Occ(leases: Leases, bindings: Bindings): set<LeaseId> {
    OccupyingExcept(leases, bindings, {})
  }

  /** The occupancy the kernel checks against, leaving out the leases `except`. */
  ghost function OccupancyExcept(k: Kernel, except: set<LeaseId>): Used {
    UsedBy(k.leases, Roots(k.leases, OccupyingExcept(k.leases, k.bindings, except)))
  }

  function LeaseParents(leases: Leases): map<LeaseId, LeaseId> {
    map l | l in leases && leases[l].parent.Some? :: leases[l].parent.value
  }

  /** `l` was delegated, directly or not, from `a`. */
  ghost predicate Below(leases: Leases, l: LeaseId, a: LeaseId) {
    Acyclic(LeaseParents(leases)) && Under(LeaseParents(leases), l, a)
  }

  predicate Blocked(states: map<NodeId, NodeState>, n: NodeId) {
    n in states && states[n] != Schedulable
  }

  predicate NodeQuarantined(k: Kernel, n: NodeId) {
    Blocked(k.nodeStates, n) || exists a :: a in Ancestors(k.graph.parent, n) && Blocked(k.nodeStates, a)
  }

  predicate InScope(g: Graph, n: NodeId, scope: NodeId) {
    n == scope || scope in Ancestors(g.parent, n)
  }

  function SessionOf(k: Kernel, n: NodeId): Option<nat> {
    var m := MachineOf(k.graph, n);
    if m.Some? && m.value in k.sessions then Some(k.sessions[m.value]) else None
  }

  function EffectFor(k: Kernel, op: Op, b: BindingId): Effect
    requires b in k.bindings
  {
    var x := k.bindings[b];
    var s := SessionOf(k, x.node);
    Drive(op, b, x.node, x.provider, x.fence, if s.Some? then s.value else x.session, k.epoch)
  }

  /** One `op` effect for every open binding of `lease`. */
  function EffectsOf(k: Kernel, op: Op, lease: LeaseId): set<Effect> {
    set b | b in k.bindings && k.bindings[b].lease == lease && !Closed(k.bindings[b].state) :: EffectFor(k, op, b)
  }

  function NodeStateOf(k: Kernel, n: NodeId): NodeState {
    if n in k.nodeStates then k.nodeStates[n] else Schedulable
  }

  function LiveMachineBindings(k: Kernel, machine: NodeId): set<BindingId> {
    set b | b in k.bindings && MachineOf(k.graph, k.bindings[b].node) == Some(machine)
            && (k.bindings[b].state.BPreparing? || k.bindings[b].state.BActive?)
  }

  /** An acknowledgement counts only in the machine's current session and at the
      fence the binding was opened with. */
  predicate AckMatches(k: Kernel, b: BindingId, session: nat, fence: nat) {
    b in k.bindings && SessionOf(k, k.bindings[b].node) == Some(session) && k.bindings[b].fence == fence
  }

  /* ---------- claims ---------- */

  function ResolvedQuantity(g: Graph, c: Claim): Quantity {
    if c.quantity == map[] then CapacityOf(g, c.node) else c.quantity
  }

  function Resolve(g: Graph, claims: seq<Claim>): seq<Claim> {
    seq(|claims|, i requires 0 <= i < |claims| => Claim(claims[i].node, ResolvedQuantity(g, claims[i])))
  }

  ghost predicate Resolvable(g: Graph, c: Claim) {
    c.node in g.nodes && ContractFor(g, c.node, ResolvedQuantity(g, c)).Some?
  }

  ghost predicate AllResolvable(g: Graph, claims: seq<Claim>) {
    forall i :: 0 <= i < |claims| ==> Resolvable(g, claims[i])
  }

  predicate NoneQuarantined(k: Kernel, claims: seq<Claim>) {
    forall i :: 0 <= i < |claims| ==> !NodeQuarantined(k, claims[i].node)
  }

  predicate CanCover(g: Graph, used: Used, c: Claim) {
    c.node in g.nodes && Le(c.quantity, SatSub(g.nodes[c.node].capacity, UsedOn(used, c.node)))
  }

  predicate CoversAll(g: Graph, used: Used, claims: seq<Claim>) {
    forall i :: 0 <= i < |claims| ==> CanCover(g, used, claims[i])
  }

  function FindClaim(claims: seq<Claim>, n: NodeId): Option<Claim> {
    if claims == [] then None
    else if claims[0].node == n then Some(claims[0])
    else FindClaim(claims[1..], n)
  }

  predicate Covers(parent: seq<Claim>, child: seq<Claim>) {
    forall i :: 0 <= i < |child| ==>
      exists j :: 0 <= j < |parent| && parent[j].node == child[i].node && Le(child[i].quantity, parent[j].quantity)
  }

  predicate ClaimFits(capacity: Quantity, used: Quantity, claim: Quantity) {
    forall d :: d in claim ==>
      (if Get(capacity, d) > Get(used, d) then Get(capacity, d) - Get(used, d) else 0) >= claim[d]
  }

  predicate FitsBesideSiblings(parent: seq<Claim>, siblings: Used, claims: seq<Claim>) {
    forall i :: 0 <= i < |claims| ==>
      var p := FindClaim(parent, claims[i].node);
      p.Some? && ClaimFits(p.value.quantity, UsedOn(siblings, claims[i].node), claims[i].quantity)
  }

  /* ---------- resource facts ---------- */

  ghost predicate CapacityHolds(g: Graph, used: Used) {
    forall n :: n in used ==> n in g.nodes && Le(used[n], g.nodes[n].capacity)
  }

  ghost predicate KeepsMachines(k: Kernel, staged: Graph) {
    forall l, i :: l in Occ(k.leases, k.bindings) && l in k.leases && 0 <= i < |k.leases[l].claims| ==>
      MachineOf(k.graph, k.leases[l].claims[i].node) == MachineOf(staged, k.leases[l].claims[i].node)
  }

  ghost function Install(k: Kernel, staged: Option<Graph>): (o: Outcome)
    ensures o.Accepted? ==> o.k == k.(graph := o.k.graph) && o.effects == {}
  {
    if k.agreed && staged.Some? && CapacityHolds(staged.value, OccupancyExcept(k, {})) && KeepsMachines(k, staged.value)
    then Accepted(k.(graph := staged.value), {})
    else Rejected
  }

  function Adopt(k: Kernel, assignments: seq<WriterAssignment>): (o: Outcome)
    ensures o.Accepted? ==> o.k == k.(graph := o.k.graph) && o.effects == {}
  {
    var staged := AdoptFactWriters(k.graph, assignments);
    if k.agreed && staged.Some? then Accepted(k.(graph := staged.value), {}) else Rejected
  }

  /* ---------- leases ---------- */

  /** The checks a new lease's claims pass before capacity is looked at. */
  ghost predicate Admissible(k: Kernel, claims: seq<Claim>, revision: nat) {
    revision == k.graph.revision && UniqueNodes(claims) && AllResolvable(k.graph, claims) && NoneQuarantined(k, claims)
  }

  ghost function Reserve(k: Kernel, c: Command): (o: Outcome)
    requires c.ReserveLease?
    ensures o.Accepted? ==> o.k == k.(leases := o.k.leases) && o.effects == {}
  {
    var claims := Resolve(k.graph, c.claims);
    if !k.agreed then Rejected
    else if c.lease in k.leases then
      var x := k.leases[c.lease];
      if x.state == Reserved && x.owner == c.owner && x.claims == c.claims && x.expiresAt == c.expiresAt
      then Accepted(k, {}) else Rejected
    else if Admissible(k, c.claims, c.revision) && CoversAll(k.graph, OccupancyExcept(k, {c.lease}), claims) then
      Accepted(k.(leases := k.leases[c.lease :=
        Lease(c.owner, claims, c.revision, None, c.expiresAt, 0, c.priority, Reserved, None)]), {})
    else Rejected
  }

  ghost function Promote(k: Kernel, id: LeaseId, deadline: nat): (o: Outcome)
    ensures o.Accepted? ==> o.k == k.(leases := o.k.leases) && o.effects == {}
  {
    if !k.agreed || id !in k.leases then Rejected
    else
      var x := k.leases[id];
      var claims := Resolve(k.graph, x.claims);
      if x.state == Preparing then Accepted(k, {})
      else if x.state == Reserved && AllResolvable(k.graph, x.claims) && NoneQuarantined(k, x.claims)
              && (k.replaying || k.now < x.expiresAt) && CoversAll(k.graph, OccupancyExcept(k, {id}), claims) then
        Accepted(k.(leases := k.leases[id :=
          x.(claims := claims, revision := k.graph.revision, state := Preparing, prepareDeadline := deadline)]), {})
      else Rejected
  }

  /** A delegated lease must stay inside its active parent, beside its siblings. */
  ghost predicate FitsParent(k: Kernel, id: LeaseId, p: LeaseId, claims: seq<Claim>) {
    && p in k.leases && k.leases[p].state == Active
    && Covers(k.leases[p].claims, claims)
    && FitsBesideSiblings(k.leases[p].claims,
         UsedBy(k.leases, Kids(k.leases, OccupyingExcept(k.leases, k.bindings, {id}), p)), claims)
  }

  ghost function Open(k: Kernel, c: Command): (o: Outcome)
    requires c.OpenLease?
    ensures o.Accepted? ==> o.k == k.(leases := o.k.leases) && o.effects == {}
  {
    var claims := Resolve(k.graph, c.claims);
    if !k.agreed then Rejected
    else if c.lease in k.leases then
      var x := k.leases[c.lease];
      if x.owner == c.owner && x.parent == c.parent && x.claims == c.claims then Accepted(k, {}) else Rejected
    else if Admissible(k, c.claims, c.revision)
            && (if c.parent.Some? then FitsParent(k, c.lease, c.parent.value, claims)
                else CoversAll(k.graph, OccupancyExcept(k, {c.lease}), claims)) then
      Accepted(k.(leases := k.leases[c.lease :=
        Lease(c.owner, claims, c.revision, c.parent, c.expiresAt, c.prepareDeadline, c.priority, Preparing, None)]), {})
    else Rejected
  }

  predicate PreparedOn(bindings: Bindings, id: LeaseId, n: NodeId) {
    exists b :: b in bindings && bindings[b].lease == id && bindings[b].node == n
      && bindings[b].state.BPreparing? && bindings[b].handle.Some?
  }

  predicate BindingsPrepared(bindings: Bindings, id: LeaseId) {
    forall b :: b in bindings && bindings[b].lease == id ==> bindings[b].state.BPreparing? && bindings[b].handle.Some?
  }

  ghost predicate MayActivate(k: Kernel, id: LeaseId)
    requires id in k.leases
  {
    var x := k.leases[id];
    && x.state == Preparing && x.revision == k.graph.revision && NoneQuarantined(k, x.claims)
    && (k.replaying || (k.now < x.expiresAt && k.now <= x.prepareDeadline))
    && (if x.parent.Some? then x.parent.value in k.leases && k.leases[x.parent.value].state == Active
        else CoversAll(k.graph, OccupancyExcept(k, {id}), x.claims))
    && BindingsPrepared(k.bindings, id)
    && (x.parent.None? ==> forall i :: 0 <= i < |x.claims| ==> PreparedOn(k.bindings, id, x.claims[i].node))
  }

  ghost function ActivateLeaseStep(k: Kernel, id: LeaseId): (o: Outcome)
    ensures o.Accepted? ==> o.k == k.(leases := o.k.leases) && o.effects == {}
  {
    if !k.agreed || id !in k.leases then Rejected
    else if k.leases[id].state == Active then Accepted(k, {})
    else if MayActivate(k, id) then Accepted(SetState(k, id, Active), {})
    else Rejected
  }

  function SetState(k: Kernel, id: LeaseId, s: LeaseState): Kernel
    requires id in k.leases
  {
    k.(leases := k.leases[id := k.leases[id].(state := s)])
  }

  /** Everything delegated from `id` that is not already in a kept state ends as `s`. */
  ghost function CascadeLeases(leases: Leases, id: LeaseId, s: LeaseState, kept: set<LeaseState>): Leases {
    map l | l in leases ::
      if Below(leases, l, id) && leases[l].state !in kept then leases[l].(state := s) else leases[l]
  }

  ghost function Cascade(k: Kernel, id: LeaseId, s: LeaseState, kept: set<LeaseState>): Kernel {
    k.(leases := CascadeLeases(k.leases, id, s, kept))
  }

  ghost function BelowFences(k: Kernel, id: LeaseId): set<Effect> {
    set b | b in k.bindings && Below(k.leases, k.bindings[b].lease, id) && !Closed(k.bindings[b].state) ::
      EffectFor(k, Fence, b)
  }

  const SETTLED := {Failed, Released, Revoked, Expired}

  ghost function Fail(k: Kernel, id: LeaseId): (o: Outcome)
    ensures o.Accepted? ==> o.k == k.(leases := o.k.leases)
  {
    if id !in k.leases then Rejected
    else
      var down := Cascade(k, id, Failed, SETTLED);
      if k.leases[id].state in SETTLED then Accepted(down, BelowFences(k, id))
      else Accepted(SetState(down, id, Failed), BelowFences(k, id) + EffectsOf(k, Fence, id))
  }

  ghost predicate HasLiveBelow(k: Kernel, id: LeaseId) {
    exists l :: l in Occ(k.leases, k.bindings) && Below(k.leases, l, id)
  }

  ghost function ReleaseLeaseStep(k: Kernel, id: LeaseId): (o: Outcome)
    ensures o.Accepted? ==> o.k == k.(leases := o.k.leases)
  {
    if HasLiveBelow(k, id) || id !in k.leases then Rejected
    else
      var s := k.leases[id].state;
      if s == Released then Accepted(k, EffectsOf(k, Release, id))
      else if s == Active || s == Reserved then Accepted(SetState(k, id, Released), EffectsOf(k, Release, id))
      else Rejected
  }

  ghost function Revoke(k: Kernel, id: LeaseId): (o: Outcome)
    ensures o.Accepted? ==> o.k == k.(leases := o.k.leases)
  {
    if id !in k.leases then Rejected
    else
      var down := Cascade(k, id, Revoked, SETTLED);
      Accepted(if k.leases[id].state in SETTLED then down else SetState(down, id, Revoked),
               BelowFences(k, id) + EffectsOf(k, Fence, id))
  }

  ghost function Expire(k: Kernel, id: LeaseId): (o: Outcome)
    ensures o.Accepted? ==> o.k == k.(leases := o.k.leases)
  {
    if id !in k.leases then Rejected
    else
      var x := k.leases[id];
      if x.state == Expired then Accepted(k, EffectsOf(k, Fence, id))
      else if !Live(x.state) || (!k.replaying && k.now < x.expiresAt) then Rejected
      else Accepted(SetState(Cascade(k, id, Expired, SETTLED), id, Expired),
                    BelowFences(k, id) + EffectsOf(k, Fence, id))
  }

  ghost function Complete(k: Kernel, id: LeaseId, exitCode: int): (o: Outcome)
    ensures o.Accepted? ==> o.k == k.(leases := o.k.leases)
  {
    if id !in k.leases then Rejected
    else
      var x := k.leases[id];
      var final := if exitCode == 0 then Completed else Failed;
      if x.state == Completed || x.state == Failed then Accepted(k, EffectsOf(k, Fence, id))
      else if !Live(x.state) then Rejected
      else
        var down := Cascade(k, id, final, SETTLED + {Completed});
        Accepted(down.(leases := down.leases[id := x.(state := final, exitCode := Some(exitCode))]),
                 BelowFences(k, id) + EffectsOf(k, Fence, id))
  }

  function Renew(k: Kernel, id: LeaseId, at: nat): (o: Outcome)
    ensures o.Accepted? ==> o.k == k.(leases := o.k.leases) && o.effects == {}
  {
    if !k.agreed || id !in k.leases || !(k.leases[id].state == Active || k.leases[id].state == Reserved) then Rejected
    else if at == k.leases[id].expiresAt then Accepted(k, {})
    else if at <= k.leases[id].expiresAt || (!k.replaying && at <= k.now) then Rejected
    else Accepted(k.(leases := k.leases[id := k.leases[id].(expiresAt := at)]), {})
  }

  /* ---------- bindings ---------- */

  predicate Conflicts(bindings: Bindings, n: NodeId, p: ProviderId, scope: BindingScope) {
    exists b :: b in bindings && bindings[b].provider == p && bindings[b].node == n && !Closed(bindings[b].state)
      && (scope == Exclusive || bindings[b].scope == Exclusive)
  }

  function Watermark(lastFence: map<(ProviderId, NodeId), nat>, p: ProviderId, n: NodeId): nat {
    if (p, n) in lastFence then lastFence[(p, n)] else 0
  }

  ghost predicate MayBind(k: Kernel, c: Command)
    requires c.OpenBinding?
  {
    && c.lease in k.leases && k.leases[c.lease].state == Preparing && k.leases[c.lease].parent.None?
    && (var claim := FindClaim(k.leases[c.lease].claims, c.node);
        claim.Some? && ContractFor(k.graph, c.node, claim.value.quantity) == Some(ClaimBinding(c.provider, c.scope)))
    && !NodeQuarantined(k, c.node) && SessionOf(k, c.node).Some?
    && !Conflicts(k.bindings, c.node, c.provider, c.scope)
  }

  ghost function Bind(k: Kernel, c: Command): (o: Outcome)
    requires c.OpenBinding?
    ensures o.Accepted? ==> o.k == k.(bindings := o.k.bindings, lastFence := o.k.lastFence)
  {
    if c.binding in k.bindings then
      var x := k.bindings[c.binding];
      if x.lease == c.lease && x.node == c.node && x.provider == c.provider && x.scope == c.scope then
        Accepted(k, if x.state.BPreparing? then {EffectFor(k, Prepare, c.binding)} else {})
      else Rejected
    else if !MayBind(k, c) then Rejected
    else
      var fence := if c.scope == Exclusive then Watermark(k.lastFence, c.provider, c.node) + 1
                   else if c.binding < 1 then 1 else c.binding;
      var k' := k.(
        lastFence := if c.scope == Exclusive then k.lastFence[(c.provider, c.node) := fence] else k.lastFence,
        bindings := k.bindings[c.binding :=
          Binding(c.lease, c.node, c.provider, c.scope, fence, SessionOf(k, c.node).value, BPreparing, None)]);
      Accepted(k', {EffectFor(k', Prepare, c.binding)})
  }

  function SetBinding(k: Kernel, b: BindingId, x: Binding): Kernel {
    k.(bindings := k.bindings[b := x])
  }

  function ActivateBindingStep(k: Kernel, b: BindingId): (o: Outcome)
    ensures o.Accepted? ==> o.k == k.(bindings := o.k.bindings)
  {
    if b !in k.bindings then Rejected
    else
      var x := k.bindings[b];
      if x.lease !in k.leases || k.leases[x.lease].state != Active then Rejected
      else if x.state.BActive? then Accepted(k, {EffectFor(k, Activate, b)})
      else if x.state.BPreparing? then Accepted(SetBinding(k, b, x.(state := BActive)), {EffectFor(k, Activate, b)})
      else Rejected
  }

  function FenceBindingStep(k: Kernel, b: BindingId): Outcome {
    if b !in k.bindings then Rejected
    else Accepted(k, if k.bindings[b].state.BReleased? then {} else {EffectFor(k, Fence, b)})
  }

  function FailBindingStep(k: Kernel, b: BindingId): (o: Outcome)
    ensures o.Accepted? ==> o.k == k.(bindings := o.k.bindings)
  {
    if b !in k.bindings then Rejected
    else if Closed(k.bindings[b].state) then Accepted(k, {})
    else Accepted(SetBinding(k, b, k.bindings[b].(state := BFailed)), {EffectFor(k, Fence, b)})
  }

  function ReleaseBindingStep(k: Kernel, b: BindingId): Outcome {
    if b !in k.bindings then Rejected
    else Accepted(k, if k.bindings[b].state.BFenced? then {} else {EffectFor(k, Release, b)})
  }

  function PreparedAck(k: Kernel, b: BindingId, session: nat, handle: nat, fence: nat): (o: Outcome)
    ensures o.Accepted? ==> o.k == k.(bindings := o.k.bindings) && o.effects == {}
  {
    if AckMatches(k, b, session, fence) && (k.bindings[b].state.BPreparing? || k.bindings[b].state.BActive?) then
      Accepted(SetBinding(k, b, k.bindings[b].(handle := Some(handle), session := session)), {})
    else Rejected
  }

  function ActiveAck(k: Kernel, b: BindingId, session: nat, fence: nat): (o: Outcome)
    ensures o.Accepted? ==> o.k == k.(bindings := o.k.bindings) && o.effects == {}
  {
    if AckMatches(k, b, session, fence) && k.bindings[b].state.BActive? then
      Accepted(SetBinding(k, b, k.bindings[b].(session := session)), {})
    else Rejected
  }

  /** A close acknowledgement, released or fenced. */
  function ClosedAck(k: Kernel, b: BindingId, session: nat, fence: nat, s: BindingState): (o: Outcome)
    ensures o.Accepted? ==> o.k == k.(bindings := o.k.bindings) && o.effects == {}
  {
    if AckMatches(k, b, session, fence) then
      Accepted(SetBinding(k, b, k.bindings[b].(session := session, state := s)), {})
    else Rejected
  }

  /** A failed binding fails its lease, and only that lease: delegations live on. */
  function FailedAck(k: Kernel, b: BindingId, session: nat, fence: nat): (o: Outcome)
    ensures o.Accepted? ==> o.k == k.(leases := o.k.leases, bindings := o.k.bindings)
  {
    if AckMatches(k, b, session, fence) && k.bindings[b].lease in k.leases then
      var x := k.bindings[b];
      var k1 := SetBinding(k, b, x.(session := session, state := if Closed(x.state) then x.state else BFailed));
      var k2 := if k.leases[x.lease].state in SETTLED then k1 else SetState(k1, x.lease, Failed);
      Accepted(k2, EffectsOf(k2, Fence, x.lease))
    else Rejected
  }

  /* ---------- machines and node states ---------- */

  function AgentSession(k: Kernel, m: NodeId, session: nat): (o: Outcome)
    ensures o.Accepted? ==> o.k == k.(sessions := o.k.sessions)
  {
    if !IsClass(k.graph, m, MACHINE) || (m in k.sessions && session < k.sessions[m]) then Rejected
    else
      var k' := k.(sessions := k.sessions[m := session]);
      Accepted(k', {Reconcile(m, session, k.epoch, LiveMachineBindings(k, m))})
  }

  predicate OpenBindingUnder(k: Kernel, n: NodeId) {
    exists b :: b in k.bindings && !Closed(k.bindings[b].state) && InScope(k.graph, k.bindings[b].node, n)
  }

  ghost predicate LiveAuthority(k: Kernel, n: NodeId) {
    || (exists l, i :: l in Occ(k.leases, k.bindings) && l in k.leases && 0 <= i < |k.leases[l].claims|
          && InScope(k.graph, k.leases[l].claims[i].node, n))
    || OpenBindingUnder(k, n)
  }

  ghost function SetNode(k: Kernel, n: NodeId, s: NodeState): (o: Outcome)
    ensures o.Accepted? ==> o.k == k.(nodeStates := o.k.nodeStates) && o.effects == {}
  {
    var current := NodeStateOf(k, n);
    if n !in k.graph.nodes || (current == Retired && s != Retired) then Rejected
    else if s == Schedulable && current != Schedulable && current != Draining && OpenBindingUnder(k, n) then Rejected
    else if s == Retired && LiveAuthority(k, n) then Rejected
    else if s == Schedulable then Accepted(k.(nodeStates := k.nodeStates - {n}), {})
    else Accepted(k.(nodeStates := k.nodeStates[n := s]), {})
  }

  ghost function Unquarantine(k: Kernel, n: NodeId): (o: Outcome)
    ensures o.Accepted? ==> o.k == k.(nodeStates := o.k.nodeStates) && o.effects == {}
  {
    if n !in k.graph.nodes then Rejected
    else if NodeStateOf(k, n) != Quarantined then Accepted(k, {})
    else SetNode(k, n, Schedulable)
  }

  function Rebind(k: Kernel, b: BindingId, session: nat): (o: Outcome)
    ensures o.Accepted? ==> o.k == k.(bindings := o.k.bindings) && o.effects == {}
  {
    if b in k.bindings && SessionOf(k, k.bindings[b].node) == Some(session) then
      Accepted(SetBinding(k, b, k.bindings[b].(session := session)), {})
    else Rejected
  }

  function AdvanceFence(k: Kernel, n: NodeId, p: ProviderId, fence: nat): (o: Outcome)
    ensures o.Accepted? ==> o.k == k.(lastFence := o.k.lastFence) && o.effects == {}
  {
    if n !in k.graph.nodes || fence == 0 then Rejected
    else
      var w := Watermark(k.lastFence, p, n);
      Accepted(k.(lastFence := k.lastFence[(p, n) := if fence > w then fence else w]), {})
  }

  function Observe(k: Kernel, n: NodeId, health: string): (o: Outcome)
    ensures o.Accepted? ==> o.k == k.(graph := o.k.graph) && o.effects == {}
  {
    var g := SetObservation(k.graph, n, HEALTH, health);
    if g.Some? then Accepted(k.(graph := g.value), {}) else Rejected
  }

  ghost function Step(k: Kernel, c: Command): Outcome {
    match c
    case ApplyGraphCmd(nodes, edges) => Install(k, ApplyUnowned(k.graph, nodes, edges))
    case ApplyResourceFactsCmd(nodes, edges, updates) => Install(k, ApplyResourceFacts(k.graph, nodes, edges, updates))
    case ApplyProviderFactsCmd(batches, updates) => Install(k, ApplyProviderFacts(k.graph, batches, updates))
    case AdoptFactWritersCmd(assignments) => Adopt(k, assignments)
    case ReserveLease(_, _, _, _, _, _) => Reserve(k, c)
    case PromoteLease(l, deadline) => Promote(k, l, deadline)
    case OpenLease(_, _, _, _, _, _, _, _) => Open(k, c)
    case ActivateLease(l) => ActivateLeaseStep(k, l)
    case FailLease(l) => Fail(k, l)
    case ReleaseLease(l) => ReleaseLeaseStep(k, l)
    case CompleteLease(l, code) => Complete(k, l, code)
    case RevokeLease(l) => Revoke(k, l)
    case ExpireLease(l) => Expire(k, l)
    case RenewLease(l, at) => Renew(k, l, at)
    case OpenBinding(_, _, _, _, _) => Bind(k, c)
    case ActivateBinding(b) => ActivateBindingStep(k, b)
    case FenceBinding(b) => FenceBindingStep(k, b)
    case FailBinding(b) => FailBindingStep(k, b)
    case ReleaseBinding(b) => ReleaseBindingStep(k, b)
    case RecordPrepared(b, session, handle, fence) => PreparedAck(k, b, session, handle, fence)
    case RecordActive(b, session, fence) => ActiveAck(k, b, session, fence)
    case RecordReleased(b, session, fence) => ClosedAck(k, b, session, fence, BReleased)
    case RecordFenced(b, session, fence) => ClosedAck(k, b, session, fence, BFenced)
    case RecordFailed(b, session, fence) => FailedAck(k, b, session, fence)
    case SetAgentSession(m, session) => AgentSession(k, m, session)
    case SetNodeHealth(n, health) => Observe(k, n, health)
    case SetNodeState(n, s) => SetNode(k, n, s)
    case RebindSession(b, session) => Rebind(k, b, session)
    case AdvanceEndpointFence(n, p, fence) => AdvanceFence(k, n, p, fence)
    case QuarantineNode(n) => SetNode(k, n, Quarantined)
    case UnquarantineNode(n) => Unquarantine(k, n)
  }
}
