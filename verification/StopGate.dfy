/** The controller's stop-before-release gate (crates/node/src/service.rs): enforcement of a
    lease that runs a program is torn down on a machine only after its member there was
    proven stopped in the machine's current session. */
module StopGate {
  import opened ResourceGraph
  import opened Occupancy
  import opened Kernel
  import opened Authority
  import opened Runs
  import opened Pinning

  datatype Tag =
    | BindingTag(binding: BindingId, session: nat, fence: nat, phase: Op)
    | StopTag(lease: LeaseId, machine: NodeId, session: nat)

  /** `programs` are the leases that run a program. Effects in `pending` may be routed at any
      time and in any order. */
  datatype Service = Service(
    k: Kernel,
    programs: set<LeaseId>,
    stopped: set<(LeaseId, NodeId, nat)>,
    inflight: set<Tag>,
    held: set<(BindingId, Op)>,
    pending: set<Effect>)

  predicate Closes(op: Op) {
    op.Release? || op.Fence?
  }

  predicate Terminal(k: Kernel, l: LeaseId) {
    l in k.leases && !Live(k.leases[l].state)
  }

  predicate StopProven(s: Service, lease: LeaseId, machine: NodeId) {
    machine in s.k.sessions && (lease, machine, s.k.sessions[machine]) in s.stopped
  }

  function ClaimMachines(g: Graph, claims: seq<Claim>): set<NodeId> {
    set i | 0 <= i < |claims| && MachineOf(g, claims[i].node).Some? :: MachineOf(g, claims[i].node).value
  }

  /** The machines a lease runs members on. */
  function LeaseMachines(k: Kernel, l: LeaseId): set<NodeId> {
    if l !in k.leases then {} else ClaimMachines(k.graph, k.leases[l].claims)
  }

  function StopRequests(s: Service, l: LeaseId): set<Tag> {
    set m | m in LeaseMachines(s.k, l) && m in s.k.sessions && (l, m, s.k.sessions[m]) !in s.stopped ::
      StopTag(l, m, s.k.sessions[m])
  }

  ghost function Commit(s: Service, c: Command): Service {
    var o := Step(s.k, c);
    if o.Accepted? then s.(k := o.k, pending := s.pending + o.effects) else s
  }

  /** A binding left on an old session first moves to the machine's current one. */
  ghost function Rebound(s: Service, b: BindingId): Service
    requires b in s.k.bindings
  {
    var m := MachineOf(s.k.graph, s.k.bindings[b].node);
    if m.Some? && m.value in s.k.sessions && s.k.sessions[m.value] != s.k.bindings[b].session
    then Commit(s, RebindSession(b, s.k.sessions[m.value])) else s
  }

  /** The teardown waits: the lease ended, it runs a program, and its member on the machine is
      not proven stopped. */
  predicate Waits(s: Service, b: BindingId)
    requires b in s.k.bindings
  {
    var x := s.k.bindings[b];
    var m := MachineOf(s.k.graph, x.node);
    m.Some? && Terminal(s.k, x.lease) && x.lease in s.programs && m.value in s.k.sessions
      && !StopProven(s, x.lease, m.value)
  }

  /** Sends one request to the binding's agent, or holds it and asks for the members to stop. */
  function Dispatched(s: Service, b: BindingId, op: Op): Service
    requires b in s.k.bindings
  {
    if MachineOf(s.k.graph, s.k.bindings[b].node).None? then s
    else if Waits(s, b) then
      s.(held := s.held + {(b, op)}, inflight := s.inflight + StopRequests(s, s.k.bindings[b].lease))
    else
      s.(inflight := s.inflight + {BindingTag(b, s.k.bindings[b].session, s.k.bindings[b].fence, op)})
  }

  /** Routes one effect towards its agent. */
  ghost function Routed(s: Service, b: BindingId, op: Op): Service {
    if b !in s.k.bindings then s
    else
      var s1 := Rebound(s, b);
      if b !in s1.k.bindings then s1 else Dispatched(s1, b, op)
  }

  /** What an agent may answer to a request of one phase. */
  function InKind(t: Tag, failed: bool, handle: nat): Command
    requires t.BindingTag?
  {
    if failed then RecordFailed(t.binding, t.session, t.fence)
    else
      match t.phase
      case Prepare => RecordPrepared(t.binding, t.session, handle, t.fence)
      case Activate => RecordActive(t.binding, t.session, t.fence)
      case Release => RecordReleased(t.binding, t.session, t.fence)
      case Fence => RecordFenced(t.binding, t.session, t.fence)
  }

  /** A stop acknowledgement of another session than the machine's current one proves nothing. */
  function StopAnswered(s: Service, t: Tag): Service
    requires t.StopTag?
  {
    var s1 := s.(inflight := s.inflight - {t});
    if t.machine in s.k.sessions && s.k.sessions[t.machine] == t.session
    then s1.(stopped := s1.stopped + {(t.lease, t.machine, t.session)}) else s1
  }

  /** A member found exited when its machine is recovered is proven stopped. */
  function ExitRecovered(s: Service, lease: LeaseId, machine: NodeId): Service {
    if machine in s.k.sessions
    then s.(stopped := s.stopped + {(lease, machine, s.k.sessions[machine])}) else s
  }

  /** The members of an ended lease that runs a program are asked to stop. */
  function Asked(s: Service, lease: LeaseId): Service {
    if Terminal(s.k, lease) && lease in s.programs then s.(inflight := s.inflight + StopRequests(s, lease)) else s
  }

  /** One turn of the controller. A `RecoveredExit` counts whether or not the lease has ended.
      `Dropped` requests were never answered, or answered with nothing to record; `Dropped`
      holds lost their binding's machine. */
  datatype Turn =
    | Decide(c: Command)
    | Clock(now: nat)
    | RoutePending(e: Effect)
    | RouteHeld(binding: BindingId, op: Op)
    | BindingAnswer(tag: Tag, failed: bool, handle: nat)
    | StopAnswer(tag: Tag)
    | RecoveredExit(lease: LeaseId, machine: NodeId)
    | ReportedClosed(binding: BindingId, fence: nat)
    | AskStop(lease: LeaseId)
    | Dropped(tags: set<Tag>, holds: set<(BindingId, Op)>)
    | Restart

  /** Commands the controller decides on: acknowledgements come only as answers, and it
      tears single bindings down only where the lease has ended. */
  predicate Decidable(k: Kernel, c: Command) {
    && !IsAck(c) && !c.FailBinding? && !c.ReleaseBinding?
    && (c.FenceBinding? && c.binding in k.bindings ==> Terminal(k, k.bindings[c.binding].lease))
  }

  ghost predicate MayTurn(s: Service, t: Turn) {
    match t
    case Decide(c) => Decidable(s.k, c)
    case RoutePending(e) => e in s.pending && e.Drive?
    case RouteHeld(b, op) => (b, op) in s.held && Closes(op)
    case BindingAnswer(tag, _, _) => tag in s.inflight && tag.BindingTag?
    case StopAnswer(tag) => tag in s.inflight && tag.StopTag?
    case _ => true
  }

  /** An endpoint reported closed whose kernel record is open: closed in the kernel only if
      nothing needs stopping or the stop is proven. */
  ghost predicate MayClose(s: Service, b: BindingId) {
    && b in s.k.bindings && !Closed(s.k.bindings[b].state)
    && (var m := MachineOf(s.k.graph, s.k.bindings[b].node);
        m.Some? && m.value in s.k.sessions
        && (s.k.bindings[b].lease in s.programs ==> StopProven(s, s.k.bindings[b].lease, m.value)))
  }

  ghost function Turned(s: Service, t: Turn): Service
    requires MayTurn(s, t)
  {
    match t
    case Decide(c) => Commit(s, c)
    case Clock(now) => s.(k := s.k.(now := now))
    case RoutePending(e) => Routed(s, e.binding, e.op)
    case RouteHeld(b, op) => Routed(s.(held := s.held - {(b, op)}), b, op)
    case BindingAnswer(tag, failed, handle) => Commit(s.(inflight := s.inflight - {tag}), InKind(tag, failed, handle))
    case StopAnswer(tag) => StopAnswered(s, tag)
    case RecoveredExit(lease, machine) => ExitRecovered(s, lease, machine)
    case ReportedClosed(b, fence) =>
      if MayClose(s, b) then
        Commit(s, RecordFenced(b, s.k.sessions[MachineOf(s.k.graph, s.k.bindings[b].node).value], fence))
      else s
    case AskStop(lease) => Asked(s, lease)
    case Dropped(tags, holds) => s.(inflight := s.inflight - tags, held := s.held - holds)
    case Restart => s.(stopped := {}, inflight := {}, held := {}, pending := {})
  }

  /* ---------- the invariant ---------- */

  ghost predicate EffectSound(k: Kernel, e: Effect) {
    e.Drive? && Closes(e.op) ==> e.binding in k.bindings && Terminal(k, k.bindings[e.binding].lease)
  }

  ghost predicate HeldSound(k: Kernel, h: (BindingId, Op)) {
    Closes(h.1) ==> h.0 in k.bindings && Terminal(k, k.bindings[h.0].lease)
  }

  /** A close on its way for an open binding of a program was proven in its session. */
  ghost predicate TagSound(s: Service, t: Tag) {
    t.BindingTag? && Closes(t.phase) && t.binding in s.k.bindings && !Closed(s.k.bindings[t.binding].state)
    && s.k.bindings[t.binding].lease in s.programs ==>
      var m := MachineOf(s.k.graph, s.k.bindings[t.binding].node);
      m.Some? && (s.k.bindings[t.binding].lease, m.value, t.session) in s.stopped
  }

  ghost predicate Gated(s: Service) {
    && Inv(s.k)
    && (forall e :: e in s.pending ==> EffectSound(s.k, e))
    && (forall h :: h in s.held ==> HeldSound(s.k, h))
    && (forall t :: t in s.inflight ==> TagSound(s, t))
    && (forall t :: t in s.inflight && t.BindingTag? ==> t.binding in s.k.bindings)
  }

  /* ---------- kernel steps ---------- */

  lemma EffectStays(k: Kernel, k': Kernel, e: Effect)
    requires Stable(k, k') && EffectSound(k, e)
    ensures EffectSound(k', e)
  {
  }

  lemma HeldStays(k: Kernel, k': Kernel, h: (BindingId, Op))
    requires Stable(k, k') && HeldSound(k, h)
    ensures HeldSound(k', h)
  {
  }

  lemma MachineStays(k: Kernel, c: Command, b: BindingId)
    requires Inv(k) && Step(k, c).Accepted? && b in k.bindings && !Closed(k.bindings[b].state)
    ensures MachineOf(Step(k, c).k.graph, k.bindings[b].node) == MachineOf(k.graph, k.bindings[b].node)
  {
    var x := k.bindings[b];
    assert x.lease in OpenLeases(k.bindings);
    BindingClaim(k, b);
    hide Inv, Step, MachineOf;
    var i :| 0 <= i < |k.leases[x.lease].claims| && k.leases[x.lease].claims[i].node == x.node;
    StepPins(k, c, x.lease, i);
  }

  lemma BindingClaim(k: Kernel, b: BindingId)
    requires Inv(k) && b in k.bindings
    ensures k.bindings[b].lease in k.leases && k.leases[k.bindings[b].lease].parent.None?
    ensures ClaimsNode(k.leases[k.bindings[b].lease].claims, k.bindings[b].node)
    ensures !Closed(k.bindings[b].state) ==> SessionOf(k, k.bindings[b].node).Some?
  {
  }

  lemma TagStays(s: Service, c: Command, t: Tag)
    requires Inv(s.k) && Step(s.k, c).Accepted? && TagSound(s, t) && t.BindingTag? && t.binding in s.k.bindings
    ensures TagSound(s.(k := Step(s.k, c).k), t) && t.binding in Step(s.k, c).k.bindings
  {
    StepStable(s.k, c);
    var k' := Step(s.k, c).k;
    assert Later(s.k.bindings[t.binding], k'.bindings[t.binding]);
    hide Inv, Stable, Step, MachineOf;
    if !Closed(k'.bindings[t.binding].state) {
      MachineStays(s.k, c, t.binding);
    }
  }

  lemma NoneBelow(k: Kernel, id: LeaseId)
    requires Inv(k)
    ensures BelowFences(k, id) == {}
  {
  }

  lemma OwnEffects(k: Kernel, k': Kernel, op: Op, l: LeaseId)
    requires Terminal(k', l) && forall b :: b in k.bindings ==>
               b in k'.bindings && k'.bindings[b].lease == k.bindings[b].lease
    ensures forall e :: e in EffectsOf(k, op, l) ==> EffectSound(k', e)
  {
  }

  /** A lease-ending command: the lease has ended and only its own bindings are torn down. */
  ghost predicate EndsOwn(k: Kernel, l: LeaseId, o: Outcome) {
    o.Accepted? ==>
      && Terminal(o.k, l) && o.k.bindings == k.bindings
      && exists op :: o.effects <= BelowFences(k, l) + EffectsOf(k, op, l)
  }

  lemma EndsOwnBy(k: Kernel, l: LeaseId, o: Outcome)
    requires o.Accepted? && Terminal(o.k, l) && o.k.bindings == k.bindings
    requires o.effects <= BelowFences(k, l) + EffectsOf(k, Fence, l)
    ensures EndsOwn(k, l, o)
  {
    hide Below, EffectsOf, BelowFences;
  }

  lemma RejectedEndsOwn(k: Kernel, l: LeaseId)
    ensures EndsOwn(k, l, Rejected)
  {
  }

  lemma CascadeKeepsEnded(leases: Leases, l: LeaseId, s: LeaseState)
    requires l in leases && !Live(s)
    ensures l in CascadeLeases(leases, l, s, SETTLED)
    ensures !Live(leases[l].state) ==> !Live(CascadeLeases(leases, l, s, SETTLED)[l].state)
  {
    hide Below;
  }

  lemma FailEndsOwn(k: Kernel, l: LeaseId)
    ensures EndsOwn(k, l, Fail(k, l))
  {
    hide Below, EffectsOf, BelowFences, CascadeLeases, EndsOwn;
    if l in k.leases {
      CascadeKeepsEnded(k.leases, l, Failed);
      EndsOwnBy(k, l, Fail(k, l));
    } else {
      RejectedEndsOwn(k, l);
    }
  }

  lemma RevokeEndsOwn(k: Kernel, l: LeaseId)
    ensures EndsOwn(k, l, Revoke(k, l))
  {
    hide Below, EffectsOf, BelowFences, CascadeLeases, EndsOwn;
    if l in k.leases {
      CascadeKeepsEnded(k.leases, l, Revoked);
      EndsOwnBy(k, l, Revoke(k, l));
    } else {
      RejectedEndsOwn(k, l);
    }
  }

  lemma ExpireEndsOwn(k: Kernel, l: LeaseId)
    ensures EndsOwn(k, l, Expire(k, l))
  {
  }

  lemma CompleteEndsOwn(k: Kernel, l: LeaseId, code: int)
    ensures EndsOwn(k, l, Complete(k, l, code))
  {
  }

  lemma ReleaseEndsOwn(k: Kernel, l: LeaseId)
    ensures EndsOwn(k, l, ReleaseLeaseStep(k, l))
  {
  }

  lemma EndsOwnSound(k: Kernel, l: LeaseId, o: Outcome)
    requires Inv(k) && EndsOwn(k, l, o) && o.Accepted?
    ensures forall e :: e in o.effects ==> EffectSound(o.k, e)
  {
    NoneBelow(k, l);
    hide Inv, EffectsOf, BelowFences, EffectSound;
    var op :| o.effects <= BelowFences(k, l) + EffectsOf(k, op, l);
    OwnEffects(k, o.k, op, l);
  }

  lemma EndingSound(k: Kernel, c: Command)
    requires Inv(k) && Step(k, c).Accepted?
    requires c.FailLease? || c.RevokeLease? || c.ExpireLease? || c.CompleteLease? || c.ReleaseLease?
    ensures forall e :: e in Step(k, c).effects ==> EffectSound(Step(k, c).k, e)
  {
    hide Inv, EndsOwn, EffectSound, Fail, Revoke, Expire, Complete, ReleaseLeaseStep;
    FailEndsOwn(k, c.lease);
    RevokeEndsOwn(k, c.lease);
    ExpireEndsOwn(k, c.lease);
    CompleteEndsOwn(k, c.lease, if c.CompleteLease? then c.exitCode else 0);
    ReleaseEndsOwn(k, c.lease);
    EndsOwnSound(k, c.lease, Step(k, c));
  }

  lemma FailedSound(k: Kernel, b: BindingId, session: nat, fence: nat)
    requires FailedAck(k, b, session, fence).Accepted?
    ensures forall e :: e in FailedAck(k, b, session, fence).effects ==>
              EffectSound(FailedAck(k, b, session, fence).k, e)
  {
  }

  lemma SingleSound(k: Kernel, c: Command)
    requires Step(k, c).Accepted? && (c.OpenBinding? || c.ActivateBinding? || c.SetAgentSession? || c.FenceBinding?)
    requires c.FenceBinding? ==> c.binding in k.bindings && Terminal(k, k.bindings[c.binding].lease)
    ensures forall e :: e in Step(k, c).effects ==> EffectSound(Step(k, c).k, e)
  {
    hide MayBind, SessionOf, LiveMachineBindings;
  }

  /** A close effect is only ever emitted for a lease that has ended. */
  lemma StepSound(k: Kernel, c: Command)
    requires Inv(k) && Step(k, c).Accepted? && (IsAck(c) || Decidable(k, c))
    ensures forall e :: e in Step(k, c).effects ==> EffectSound(Step(k, c).k, e)
  {
    hide Inv, EffectSound;
    if c.FailLease? || c.RevokeLease? || c.ExpireLease? || c.CompleteLease? || c.ReleaseLease? {
      EndingSound(k, c);
    } else if c.RecordFailed? {
      hide FailedAck;
      FailedSound(k, c.binding, c.session, c.fence);
    } else if c.OpenBinding? || c.ActivateBinding? || c.SetAgentSession? || c.FenceBinding? {
      hide Bind, ActivateBindingStep, AgentSession;
      SingleSound(k, c);
    } else {
      QuietStep(k, c);
    }
  }

  /* ---------- turns ---------- */

  lemma CommitGated(s: Service, c: Command)
    requires Gated(s) && (IsAck(c) || Decidable(s.k, c))
    ensures Gated(Commit(s, c))
  {
    hide Inv, Step, Stable, EffectSound, HeldSound, TagSound, Decidable;
    if Step(s.k, c).Accepted? {
      StepKeeps(s.k, c);
      StepStable(s.k, c);
      StepSound(s.k, c);
      var k' := Step(s.k, c).k;
      forall t | t in s.inflight
        ensures TagSound(Commit(s, c), t) && (t.BindingTag? ==> t.binding in k'.bindings)
      {
        TagAfter(s, c, t);
      }
      forall e | e in s.pending ensures EffectSound(k', e) { EffectStays(s.k, k', e); }
      forall h | h in s.held ensures HeldSound(k', h) { HeldStays(s.k, k', h); }
    }
  }

  lemma TagAfter(s: Service, c: Command, t: Tag)
    requires Inv(s.k) && Step(s.k, c).Accepted? && TagSound(s, t) && (t.BindingTag? ==> t.binding in s.k.bindings)
    ensures TagSound(Commit(s, c), t) && (t.BindingTag? ==> t.binding in Step(s.k, c).k.bindings)
  {
    if t.BindingTag? {
      TagStays(s, c, t);
      hide Inv, Step, MachineOf;
    }
  }

  lemma NewTagGated(s: Service, t: Tag)
    requires Gated(s) && TagSound(s, t) && (t.BindingTag? ==> t.binding in s.k.bindings)
    ensures Gated(s.(inflight := s.inflight + {t}))
  {
    hide Inv, EffectSound, HeldSound, MachineOf;
  }

  lemma HoldGated(s: Service, h: (BindingId, Op), requests: set<Tag>)
    requires Gated(s) && HeldSound(s.k, h) && forall t :: t in requests ==> t.StopTag?
    ensures Gated(s.(held := s.held + {h}, inflight := s.inflight + requests))
  {
  }

  lemma RebindIsDecidable(k: Kernel, b: BindingId, session: nat)
    ensures Decidable(k, RebindSession(b, session))
  {
  }

  lemma ReboundGated(s: Service, b: BindingId)
    requires Gated(s) && b in s.k.bindings
    ensures Gated(Rebound(s, b))
  {
    hide Gated, Step, MachineOf, Commit, Decidable;
    var m := MachineOf(s.k.graph, s.k.bindings[b].node);
    if m.Some? && m.value in s.k.sessions {
      RebindIsDecidable(s.k, b, s.k.sessions[m.value]);
      CommitGated(s, RebindSession(b, s.k.sessions[m.value]));
    }
  }

  lemma AskGated(s: Service, requests: set<Tag>)
    requires Gated(s) && forall t :: t in requests ==> t.StopTag?
    ensures Gated(s.(inflight := s.inflight + requests))
  {
    hide Inv, EffectSound, HeldSound;
  }

  /** Rebinding leaves the binding on the current session of its machine and keeps the rest. */
  lemma ReboundIs(s: Service, b: BindingId)
    requires b in s.k.bindings
    ensures var s1 := Rebound(s, b);
            && b in s1.k.bindings && s1.k == s.k.(bindings := s1.k.bindings)
            && s1.stopped == s.stopped && s1.programs == s.programs && s1.held == s.held
            && s1.k.bindings[b].lease == s.k.bindings[b].lease && s1.k.bindings[b].node == s.k.bindings[b].node
            && (var m := MachineOf(s.k.graph, s.k.bindings[b].node);
                m.Some? && m.value in s.k.sessions ==> s1.k.bindings[b].session == s.k.sessions[m.value])
  {
    var m := MachineOf(s.k.graph, s.k.bindings[b].node);
    hide Step, MachineOf;
    if m.Some? && m.value in s.k.sessions && s.k.sessions[m.value] != s.k.bindings[b].session {
      RebindStep(s.k, b);
    }
  }

  lemma RebindStep(k: Kernel, b: BindingId)
    requires b in k.bindings && SessionOf(k, k.bindings[b].node).Some?
    ensures var session := SessionOf(k, k.bindings[b].node).value;
            Step(k, RebindSession(b, session)) == Accepted(SetBinding(k, b, k.bindings[b].(session := session)), {})
  {
    hide SessionOf;
  }

  /** A close that is let through was proven, if the binding is still open. */
  lemma LetThrough(s: Service, b: BindingId, op: Op)
    requires Gated(s) && b in s.k.bindings && !Waits(s, b) && MachineOf(s.k.graph, s.k.bindings[b].node).Some?
    requires Closes(op) ==> Terminal(s.k, s.k.bindings[b].lease)
    requires var m := MachineOf(s.k.graph, s.k.bindings[b].node).value;
             m in s.k.sessions ==> s.k.bindings[b].session == s.k.sessions[m]
    ensures TagSound(s, BindingTag(b, s.k.bindings[b].session, s.k.bindings[b].fence, op))
  {
  }

  lemma RoutedGated(s: Service, b: BindingId, op: Op)
    requires Gated(s) && (Closes(op) ==> b in s.k.bindings && Terminal(s.k, s.k.bindings[b].lease))
    ensures Gated(Routed(s, b, op))
  {
    hide Gated, Rebound, MachineOf, Inv, Step, Waits;
    if b in s.k.bindings {
      ReboundIs(s, b);
      ReboundGated(s, b);
      var s1 := Rebound(s, b);
      if MachineOf(s1.k.graph, s1.k.bindings[b].node).Some? {
        hide Dispatched;
        ReboundRoutes(s, s1, b, op);
      }
    }
  }

  lemma ReboundRoutes(s: Service, s1: Service, b: BindingId, op: Op)
    requires b in s.k.bindings && (Closes(op) ==> Terminal(s.k, s.k.bindings[b].lease))
    requires Gated(s1) && b in s1.k.bindings && s1.k == s.k.(bindings := s1.k.bindings)
    requires s1.k.bindings[b].lease == s.k.bindings[b].lease && s1.k.bindings[b].node == s.k.bindings[b].node
    requires var m := MachineOf(s1.k.graph, s1.k.bindings[b].node);
             m.Some? && (m.value in s1.k.sessions ==> s1.k.bindings[b].session == s1.k.sessions[m.value])
    ensures Gated(Dispatched(s1, b, op))
  {
    hide Gated, MachineOf, Waits, StopProven;
    if Waits(s1, b) {
      HoldGated(s1, (b, op), StopRequests(s1, s1.k.bindings[b].lease));
    } else {
      LetThrough(s1, b, op);
      NewTagGated(s1, BindingTag(b, s1.k.bindings[b].session, s1.k.bindings[b].fence, op));
    }
  }

  lemma ShrunkGated(s: Service, inflight: set<Tag>, held: set<(BindingId, Op)>, pending: set<Effect>)
    requires Gated(s) && inflight <= s.inflight && held <= s.held && pending <= s.pending
    ensures Gated(s.(inflight := inflight, held := held, pending := pending))
  {
  }

  lemma MoreProofGated(s: Service, proof: set<(LeaseId, NodeId, nat)>)
    requires Gated(s)
    ensures Gated(s.(stopped := s.stopped + proof))
  {
  }

  lemma ClockGated(s: Service, now: nat)
    requires Gated(s)
    ensures Gated(s.(k := s.k.(now := now)))
  {
  }

  /** Every turn of the controller keeps the gate. */
  lemma TurnGated(s: Service, t: Turn)
    requires Gated(s) && MayTurn(s, t)
    ensures Gated(Turned(s, t))
  {
    hide Step, Inv, MachineOf, TagSound;
    match t
    case Decide(c) => hide Gated, Commit; CommitGated(s, c);
    case Clock(now) => hide Gated; ClockGated(s, now);
    case RoutePending(e) =>
      assert EffectSound(s.k, e);
      hide Gated, Routed;
      RoutedGated(s, e.binding, e.op);
    case RouteHeld(b, op) =>
      assert HeldSound(s.k, (b, op));
      hide Gated, Routed;
      ShrunkGated(s, s.inflight, s.held - {(b, op)}, s.pending);
      RoutedGated(s.(held := s.held - {(b, op)}), b, op);
    case BindingAnswer(tag, failed, handle) =>
      hide Gated, Commit;
      ShrunkGated(s, s.inflight - {tag}, s.held, s.pending);
      CommitGated(s.(inflight := s.inflight - {tag}), InKind(tag, failed, handle));
    case StopAnswer(tag) =>
      hide Gated;
      ShrunkGated(s, s.inflight - {tag}, s.held, s.pending);
      MoreProofGated(s.(inflight := s.inflight - {tag}), {(tag.lease, tag.machine, tag.session)});
    case RecoveredExit(lease, machine) =>
      hide Gated;
      if machine in s.k.sessions { MoreProofGated(s, {(lease, machine, s.k.sessions[machine])}); }
    case ReportedClosed(b, fence) =>
      hide Gated, Commit;
      if MayClose(s, b) {
        CommitGated(s, RecordFenced(b, s.k.sessions[MachineOf(s.k.graph, s.k.bindings[b].node).value], fence));
      }
    case AskStop(lease) =>
      hide Gated;
      AskGated(s, StopRequests(s, lease));
    case Dropped(tags, holds) =>
      hide Gated;
      ShrunkGated(s, s.inflight - tags, s.held - holds, s.pending);
    case Restart =>
      hide Inv;
  }

  /* ---------- no teardown without a stop ---------- */

  predicate OpenIn(k: Kernel, b: BindingId) {
    b in k.bindings && !Closed(k.bindings[b].state)
  }

  /** The member of the binding's lease on the binding's machine is proven stopped in that
      machine's current session. */
  predicate MemberStopped(s: Service, b: BindingId)
    requires b in s.k.bindings
  {
    var m := MachineOf(s.k.graph, s.k.bindings[b].node);
    m.Some? && StopProven(s, s.k.bindings[b].lease, m.value)
  }

  /** If the turn closes an open binding of a program, its member was proven stopped. */
  ghost predicate ClosesOnlyStopped(s: Service, s': Service, b: BindingId) {
    OpenIn(s.k, b) && s.k.bindings[b].lease in s.programs && b in s'.k.bindings && Closed(s'.k.bindings[b].state) ==>
      MemberStopped(s, b)
  }

  lemma DecisionsClose(s: Service, c: Command, b: BindingId)
    requires !IsAck(c)
    ensures ClosesOnlyStopped(s, Commit(s, c), b)
  {
    if OpenIn(s.k, b) && Step(s.k, c).Accepted? && b in Step(s.k, c).k.bindings
      && Closed(Step(s.k, c).k.bindings[b].state) {
      hide MachineOf;
      CloseNeedsCurrentSession(s.k, c, b);
    }
  }

  lemma DispatchedKernel(s: Service, b: BindingId, op: Op)
    requires b in s.k.bindings
    ensures Dispatched(s, b, op).k == s.k
  {
    hide MachineOf, Waits;
  }

  lemma RoutingCloses(s: Service, b: BindingId, op: Op, other: BindingId)
    ensures ClosesOnlyStopped(s, Routed(s, b, op), other)
  {
    hide MachineOf, Step, Commit, Dispatched;
    if b in s.k.bindings {
      if b in Rebound(s, b).k.bindings {
        DispatchedKernel(Rebound(s, b), b, op);
      }
      var m := MachineOf(s.k.graph, s.k.bindings[b].node);
      if m.Some? && m.value in s.k.sessions {
        DecisionsClose(s, RebindSession(b, s.k.sessions[m.value]), other);
      }
    }
  }

  lemma AnswersClose(s: Service, tag: Tag, failed: bool, handle: nat, b: BindingId)
    requires tag.BindingTag? && TagSound(s, tag)
    ensures ClosesOnlyStopped(s, Commit(s.(inflight := s.inflight - {tag}), InKind(tag, failed, handle)), b)
  {
    var c := InKind(tag, failed, handle);
    if OpenIn(s.k, b) && Step(s.k, c).Accepted? && b in Step(s.k, c).k.bindings
      && Closed(Step(s.k, c).k.bindings[b].state) {
      hide MachineOf;
      CloseNeedsCurrentSession(s.k, c, b);
    }
  }

  lemma TurnCloses(s: Service, t: Turn, b: BindingId)
    requires Gated(s) && MayTurn(s, t)
    ensures ClosesOnlyStopped(s, Turned(s, t), b)
  {
    hide Step, Inv, MachineOf, TagSound;
    match t
    case Decide(c) => hide Gated, Commit, ClosesOnlyStopped; DecisionsClose(s, c, b);
    case RoutePending(e) => hide Gated, Routed, ClosesOnlyStopped; RoutingCloses(s, e.binding, e.op, b);
    case RouteHeld(x, op) =>
      hide Gated, Routed, MachineOf;
      RoutingCloses(s.(held := s.held - {(x, op)}), x, op, b);
    case BindingAnswer(tag, failed, handle) =>
      assert TagSound(s, tag);
      hide Gated, Commit, ClosesOnlyStopped;
      AnswersClose(s, tag, failed, handle, b);
    case ReportedClosed(x, fence) => ReportCloses(s, x, fence, b);
    case _ => hide Gated, MachineOf;
  }

  lemma ReportCloses(s: Service, x: BindingId, fence: nat, b: BindingId)
    ensures ClosesOnlyStopped(s, Turned(s, ReportedClosed(x, fence)), b)
  {
    if MayClose(s, x) {
      var c := RecordFenced(x, s.k.sessions[MachineOf(s.k.graph, s.k.bindings[x].node).value], fence);
      if OpenIn(s.k, b) && Step(s.k, c).Accepted? && b in Step(s.k, c).k.bindings
        && Closed(Step(s.k, c).k.bindings[b].state) {
        hide MachineOf;
        CloseNeedsCurrentSession(s.k, c, b);
      }
    }
  }

  /* ---------- driving what is held ---------- */

  /** The binding's lease, node and fence are untouched by a move to another session. */
  ghost predicate Resessioned(k: Kernel, k': Kernel) {
    && k' == k.(bindings := k'.bindings) && k'.bindings.Keys == k.bindings.Keys
    && forall b :: b in k.bindings ==> k'.bindings[b] == k.bindings[b].(session := k'.bindings[b].session)
  }

  /** A held close whose member is proven stopped. */
  predicate Ready(s: Service, h: (BindingId, Op)) {
    Closes(h.1) && h.0 in s.k.bindings && MemberStopped(s, h.0)
  }

  /** A held effect that goes on waiting. */
  predicate Kept(s: Service, h: (BindingId, Op)) {
    h.0 in s.k.bindings && MachineOf(s.k.graph, s.k.bindings[h.0].node).Some? && !MemberStopped(s, h.0)
  }

  /** A held prepare or activate whose member is proven stopped. The code declares it
      unreachable, so driving it aborts the controller. */
  predicate Jams(s: Service, h: (BindingId, Op)) {
    !Closes(h.1) && h.0 in s.k.bindings && MemberStopped(s, h.0)
  }

  /** The request of a ready close: in the machine's current session. */
  function ReadyRequest(s: Service, h: (BindingId, Op)): Tag
    requires Ready(s, h)
  {
    BindingTag(h.0, s.k.sessions[MachineOf(s.k.graph, s.k.bindings[h.0].node).value], s.k.bindings[h.0].fence, h.1)
  }

  lemma ResessionedSame(s: Service, s': Service, h: (BindingId, Op))
    requires Resessioned(s.k, s'.k) && s'.stopped == s.stopped
    ensures (Ready(s', h) <==> Ready(s, h)) && (Kept(s', h) <==> Kept(s, h)) && (Jams(s', h) <==> Jams(s, h))
    ensures Ready(s, h) ==> ReadyRequest(s', h) == ReadyRequest(s, h)
  {
    hide MachineOf;
  }

  /** Routing a ready close sends it in the machine's current session and holds nothing. */
  lemma ReadyRoutes(s: Service, h: (BindingId, Op))
    requires Ready(s, h)
    ensures var s1 := Routed(s, h.0, h.1);
            && s1 == s.(k := s1.k, inflight := s.inflight + {ReadyRequest(s, h)})
            && Resessioned(s.k, s1.k)
  {
    var m := MachineOf(s.k.graph, s.k.bindings[h.0].node);
    RebindStep(s.k, h.0);
    hide Step, MachineOf;
    assert s.k.bindings[h.0 := s.k.bindings[h.0].(session := s.k.sessions[m.value])].Keys == s.k.bindings.Keys;
  }

  ghost predicate Shift(s: Service, turns: seq<Turn>)
    decreases |turns|, 0
  {
    turns == [] || (Shift(s, turns[..|turns| - 1]) && MayTurn(Worked(s, turns[..|turns| - 1]), turns[|turns| - 1]))
  }

  ghost function Worked(s: Service, turns: seq<Turn>): Service
    requires Shift(s, turns)
    decreases |turns|, 1
  {
    if turns == [] then s else Turned(Worked(s, turns[..|turns| - 1]), turns[|turns| - 1])
  }

  lemma OneMoreTurn(s: Service, turns: seq<Turn>, t: Turn)
    requires Shift(s, turns) && MayTurn(Worked(s, turns), t)
    ensures Shift(s, turns + [t]) && Worked(s, turns + [t]) == Turned(Worked(s, turns), t)
  {
    hide MayTurn, Turned;
    assert (turns + [t])[..|turns|] == turns;
  }

  function Fresh(programs: set<LeaseId>): Service {
    Service(Initial(), programs, {}, {}, {}, {})
  }

  lemma {:induction false} ShiftGated(programs: set<LeaseId>, turns: seq<Turn>)
    requires Shift(Fresh(programs), turns)
    ensures Gated(Worked(Fresh(programs), turns))
  {
    if turns == [] {
      InitialInv();
      hide Inv;
    } else {
      hide Gated, MayTurn, Turned;
      ShiftGated(programs, turns[..|turns| - 1]);
      TurnGated(Worked(Fresh(programs), turns[..|turns| - 1]), turns[|turns| - 1]);
    }
  }

  /** In every run of the controller, restarts included: the turn that releases or fences a
      binding of a program-carrying lease happens only when the lease's member on that
      machine is proven stopped in the machine's current session. */
  lemma NoTeardownWithoutStop(programs: set<LeaseId>, turns: seq<Turn>, b: BindingId)
    requires turns != [] && Shift(Fresh(programs), turns)
    ensures ClosesOnlyStopped(Worked(Fresh(programs), turns[..|turns| - 1]), Worked(Fresh(programs), turns), b)
  {
    hide Gated, MayTurn, Turned, ClosesOnlyStopped;
    ShiftGated(programs, turns[..|turns| - 1]);
    TurnCloses(Worked(Fresh(programs), turns[..|turns| - 1]), turns[|turns| - 1], b);
  }

  /* ---------- what is ever held ---------- */

  predicate OnlyCloses(held: set<(BindingId, Op)>) {
    forall h :: h in held ==> Closes(h.1)
  }

  /** A prepare or an activate is routed although its lease has ended, the lease runs a
      program, and its member on a machine with a session is not proven stopped. */
  ghost predicate Straggles(s: Service, t: Turn) {
    t.RoutePending? && t.e.Drive? && !Closes(t.e.op) && t.e.binding in s.k.bindings && Waits(s, t.e.binding)
  }

  lemma WaitsAnySession(s: Service, b: BindingId)
    requires b in s.k.bindings
    ensures b in Rebound(s, b).k.bindings && (Waits(Rebound(s, b), b) <==> Waits(s, b)) && Rebound(s, b).held == s.held
  {
    ReboundIs(s, b);
    hide Rebound, MachineOf;
  }

  /** Routing holds an effect exactly when its teardown waits, whatever its phase. */
  lemma RoutedHolds(s: Service, b: BindingId, op: Op)
    ensures Routed(s, b, op).held == if b in s.k.bindings && Waits(s, b) then s.held + {(b, op)} else s.held
  {
    hide Rebound, MachineOf;
    if b in s.k.bindings {
      WaitsAnySession(s, b);
    }
  }

  /** A turn makes the controller hold a prepare or an activate exactly when it straggles. */
  lemma TurnHolds(s: Service, t: Turn)
    requires MayTurn(s, t) && OnlyCloses(s.held)
    ensures OnlyCloses(Turned(s, t).held) <==> !Straggles(s, t)
  {
    hide Step, MachineOf, Routed, Waits;
    if t.RoutePending? {
      RoutedHolds(s, t.e.binding, t.e.op);
      assert (t.e.binding, t.e.op) in s.held + {(t.e.binding, t.e.op)};
    } else if t.RouteHeld? {
      RoutedHolds(s.(held := s.held - {(t.binding, t.op)}), t.binding, t.op);
    }
  }

  /** At every moment of the run only closes are held. */
  ghost predicate AlwaysCloses(s: Service, turns: seq<Turn>)
    requires Shift(s, turns)
  {
    OnlyCloses(Worked(s, turns).held) && (turns == [] || AlwaysCloses(s, turns[..|turns| - 1]))
  }

  ghost predicate NeverStraggles(s: Service, turns: seq<Turn>)
    requires Shift(s, turns)
  {
    turns == []
    || (NeverStraggles(s, turns[..|turns| - 1]) && !Straggles(Worked(s, turns[..|turns| - 1]), turns[|turns| - 1]))
  }

  /** In every run: only closes are ever held exactly when no prepare or activate was routed
      after its lease ended and before its member was proven stopped. */
  lemma {:induction false} HeldOnlyClosesIff(programs: set<LeaseId>, turns: seq<Turn>)
    requires Shift(Fresh(programs), turns)
    ensures AlwaysCloses(Fresh(programs), turns) <==> NeverStraggles(Fresh(programs), turns)
  {
    if turns != [] {
      hide Turned, MayTurn, Straggles, OnlyCloses;
      var prefix := turns[..|turns| - 1];
      HeldOnlyClosesIff(programs, prefix);
      if NeverStraggles(Fresh(programs), prefix) {
        AlwaysIncludesNow(Fresh(programs), prefix);
        TurnHolds(Worked(Fresh(programs), prefix), turns[|turns| - 1]);
      }
    }
  }

  lemma AlwaysIncludesNow(s: Service, turns: seq<Turn>)
    requires Shift(s, turns) && AlwaysCloses(s, turns)
    ensures OnlyCloses(Worked(s, turns).held)
  {
  }

  /** In a run without stragglers, driving what is held never meets what it cannot drive. */
  lemma NoStragglerNoJam(programs: set<LeaseId>, turns: seq<Turn>, h: (BindingId, Op))
    requires Shift(Fresh(programs), turns) && NeverStraggles(Fresh(programs), turns)
    requires h in Worked(Fresh(programs), turns).held
    ensures !Jams(Worked(Fresh(programs), turns), h)
  {
    hide Shift, Worked, NeverStraggles, AlwaysCloses;
    HeldOnlyClosesIff(programs, turns);
    AlwaysIncludesNow(Fresh(programs), turns);
  }
}
