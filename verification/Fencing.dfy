/** The distributed fencing protocol (crates/sim/src/world.rs): the kernel, its agents and
    endpoints, and a network that may drop, repeat and reorder every effect. */
module Fencing {
  import opened Quantities
  import opened ResourceGraph
  import opened Occupancy
  import opened Kernel
  import opened Authority
  import opened Runs
  import opened Pinning
  import opened Endpoints

  datatype Agent = Agent(session: nat, epoch: nat)

  type Place = (ProviderId, NodeId)

  /** `sent` holds every effect ever emitted. Delivery may pick any of them at any time,
      any number of times: that is loss, duplication and reordering. */
  datatype WorldState = WorldState(
    k: Kernel,
    agents: map<NodeId, Agent>,
    endpoints: map<Place, EndpointState>,
    sent: set<Effect>,
    trace: seq<Event>,
    nextHandle: nat)

  function PlaceOf(x: Binding): Place {
    (x.provider, x.node)
  }

  function StartWorld(): WorldState {
    WorldState(Initial(), map[], map[], {}, [], 1)
  }

  /* ---------- the steps ---------- */

  ghost function Commit(w: WorldState, c: Command): WorldState {
    var o := Step(w.k, c);
    if o.Accepted? then w.(k := o.k, sent := w.sent + o.effects, trace := w.trace + [Cmd(c)]) else w
  }

  function AckFor(op: Op, ok: bool, b: BindingId, session: nat, handle: nat, fence: nat): Option<Command> {
    match op
    case Prepare => Some(if ok then RecordPrepared(b, session, handle, fence) else RecordFailed(b, session, fence))
    case Activate => if ok then Some(RecordActive(b, session, fence)) else None
    case Release => if ok then Some(RecordReleased(b, session, fence)) else None
    case Fence => if ok then Some(RecordFenced(b, session, fence)) else None
  }

  /** Whether an agent takes a driven effect: it must be the machine's current session and
      no older epoch than the agent has seen. */
  predicate Taken(w: WorldState, e: Effect)
    requires e.Drive?
  {
    var m := MachineOf(w.k.graph, e.node);
    m.Some? && m.value in w.agents && e.epoch >= w.agents[m.value].epoch && e.session == w.agents[m.value].session
  }

  function EndpointAt(w: WorldState, place: Place, session: nat): EndpointState {
    if place in w.endpoints then w.endpoints[place] else NewEndpoint(session)
  }

  function AnswerTo(w: WorldState, e: Effect): Answer
    requires e.Drive?
  {
    Operate(EndpointAt(w, (e.provider, e.node), e.session), e.op, e.binding, e.fence, e.session)
  }

  /** The endpoint acts on a driven effect before the answer is committed. */
  function Acted(w: WorldState, e: Effect): WorldState
    requires e.Drive?
  {
    if !Taken(w, e) then w
    else
      var m := MachineOf(w.k.graph, e.node).value;
      w.(agents := w.agents[m := w.agents[m].(epoch := e.epoch)],
         endpoints := w.endpoints[(e.provider, e.node) := AnswerTo(w, e).endpoint],
         nextHandle := if e.op == Prepare && AnswerTo(w, e).ok then w.nextHandle + 1 else w.nextHandle)
  }

  ghost function Delivered(w: WorldState, e: Effect): WorldState
    requires e.Drive?
  {
    if !Taken(w, e) then w
    else
      var ack := AckFor(e.op, AnswerTo(w, e).ok, e.binding, e.session, w.nextHandle, e.fence);
      if ack.Some? then Commit(Acted(w, e), ack.value) else Acted(w, e)
  }

  function Send(w: WorldState, e: Effect): WorldState {
    w.(sent := w.sent + {e})
  }

  function DriveFor(w: WorldState, op: Op, b: BindingId, session: nat, epoch: nat): Effect
    requires b in w.k.bindings
  {
    var x := w.k.bindings[b];
    Drive(op, b, x.node, x.provider, x.fence, session, epoch)
  }

  /** The endpoint still enforces exactly this generation of the binding. */
  predicate Proven(w: WorldState, b: BindingId) {
    && b in w.k.bindings
    && LeaseLive(w.k, b)
    && PlaceOf(w.k.bindings[b]) in w.endpoints
    && EnforcesOnly(w.endpoints[PlaceOf(w.k.bindings[b])], b)
    && w.endpoints[PlaceOf(w.k.bindings[b])].acceptedFence == w.k.bindings[b].fence
  }

  predicate LeaseLive(k: Kernel, b: BindingId)
    requires b in k.bindings
  {
    k.bindings[b].lease in k.leases && Live(k.leases[k.bindings[b].lease].state)
  }

  /** One binding of a reconciliation: adopt it if its generation is proven, otherwise
      fail its lease the first time the pass meets it (`refail`) and fence it after. */
  ghost function Reconciled(w: WorldState, b: BindingId, session: nat, epoch: nat, refail: bool): WorldState {
    if b !in w.k.bindings then w
    else
      var s := w.k.bindings[b].state;
      if Proven(w, b) then
        var w' := Commit(w, RebindSession(b, session));
        if Step(w.k, RebindSession(b, session)).Rejected? then w
        else if s.BPreparing? then Send(w', DriveFor(w, Prepare, b, session, epoch))
        else if s.BActive? then Send(w', DriveFor(w, Activate, b, session, epoch))
        else w'
      else if s.BPreparing? || s.BActive? then
        if refail && LeaseLive(w.k, b) then Commit(w, FailLease(w.k.bindings[b].lease))
        else Send(w, DriveFor(w, Fence, b, session, epoch))
      else w
  }

  /** Reconciliation fences an open endpoint whose binding is not preparing or active. */
  function Swept(w: WorldState, place: Place, session: nat, epoch: nat): WorldState {
    if place !in w.endpoints || !w.endpoints[place].open || w.endpoints[place].binding.None? then w
    else
      var e := w.endpoints[place];
      var b := e.binding.value;
      if b in w.k.bindings && (w.k.bindings[b].state.BPreparing? || w.k.bindings[b].state.BActive?) then w
      else Send(w, Drive(Fence, b, place.1, place.0, e.acceptedFence, session, epoch))
  }

  datatype Move =
    | Env(e: Event)
    | Deliver(effect: Effect)
    | Greet(machine: NodeId, session: nat, places: set<Place>)
    | Forget(machine: NodeId)
    | BeginReconcile(machine: NodeId, session: nat, epoch: nat)
    | ReconcileBinding(binding: BindingId, session: nat, epoch: nat, refail: bool)
    | SweepEndpoint(place: Place, session: nat, epoch: nat)
    | RestartController

  /** Acknowledgements come only from endpoints; everything else may happen at any time. */
  predicate Enabled(w: WorldState, m: Move) {
    match m
    case Env(e) => e.Cmd? ==> !IsAck(e.c)
    case Deliver(e) => e in w.sent && e.Drive?
    case _ => true
  }

  /** An agent (re)starts with a new session and greets some endpoints, creating those
      that are new. */
  function Greeting(w: WorldState, machine: NodeId, session: nat, places: set<Place>): WorldState {
    w.(agents := w.agents[machine := Agent(session, w.k.epoch)], endpoints := Greeted(w.endpoints, session, places))
  }

  /** Every endpoint at `places` hears of the session; missing ones are created. */
  function Greeted(endpoints: map<Place, EndpointState>, session: nat, places: set<Place>): map<Place, EndpointState> {
    map p | p in endpoints.Keys + places ::
      if p !in places then endpoints[p]
      else Handshake(if p in endpoints then endpoints[p] else NewEndpoint(session), session)
  }

  ghost function Next(w: WorldState, m: Move): WorldState {
    match m
    case Env(e) => if e.Cmd? then Commit(w, e.c) else w.(k := After(w.k, e), trace := w.trace + [e])
    case Deliver(e) => if e.Drive? then Delivered(w, e) else w
    case Greet(machine, session, places) => Greeting(w, machine, session, places)
    case Forget(machine) => w.(agents := w.agents - {machine})
    case BeginReconcile(machine, session, epoch) =>
      if machine in w.agents && epoch >= w.agents[machine].epoch
      then w.(agents := w.agents[machine := Agent(session, epoch)])
      else w
    case ReconcileBinding(b, session, epoch, refail) => Reconciled(w, b, session, epoch, refail)
    case SweepEndpoint(place, session, epoch) => Swept(w, place, session, epoch)
    case RestartController =>
      var rebuilt := ReplayTrace(w.trace);
      if rebuilt.Some? then w.(k := rebuilt.value) else w
  }

  /** Replaying a committed trace into a new kernel; refused as soon as one command is. */
  ghost function ReplayTrace(trace: seq<Event>): Option<Kernel> {
    if trace == [] then Some(Initial())
    else
      match ReplayTrace(trace[..|trace| - 1])
      case None => None
      case Some(k) =>
        var e := trace[|trace| - 1];
        if e.Cmd? && Step(k, e.c).Rejected? then None else Some(After(k, e))
  }

  ghost predicate Schedule(w: WorldState, moves: seq<Move>) {
    moves == [] || (Schedule(w, moves[..|moves| - 1]) && Enabled(Play(w, moves[..|moves| - 1]), moves[|moves| - 1]))
  }

  ghost function Play(w: WorldState, moves: seq<Move>): WorldState {
    if moves == [] then w else Next(Play(w, moves[..|moves| - 1]), moves[|moves| - 1])
  }

  /* ---------- the invariant ---------- */

  /** An effect names a binding of the kernel with its place and its fence; an activation
      is only ever sent for a lease whose every claim was prepared. */
  ghost predicate Genuine(k: Kernel, e: Effect) {
    e.Drive? ==>
      && e.binding in k.bindings
      && (var x := k.bindings[e.binding]; e.node == x.node && e.provider == x.provider && e.fence == x.fence)
      && (e.op.Activate? ==> FullyPrepared(k.leases, k.bindings, k.bindings[e.binding].lease))
  }

  ghost predicate AllGenuine(k: Kernel, effects: set<Effect>) {
    forall e :: e in effects ==> Genuine(k, e)
  }

  /** An open endpoint enforces a binding placed there, at the fence it was opened with;
      it activates only what is fully prepared. */
  ghost predicate EndpointSound(k: Kernel, place: Place, e: EndpointState) {
    && Consistent(e)
    && (e.open ==>
          && e.binding.value in k.bindings
          && PlaceOf(k.bindings[e.binding.value]) == place && k.bindings[e.binding.value].fence == e.acceptedFence
          && (e.phase == Enforcing ==> FullyPrepared(k.leases, k.bindings, k.bindings[e.binding.value].lease)))
  }

  ghost predicate EndpointsSound(k: Kernel, endpoints: map<Place, EndpointState>) {
    forall p :: p in endpoints ==> EndpointSound(k, p, endpoints[p])
  }

  /** A binding the kernel closed is over at its endpoint, and a prepare the kernel
      counted reached its endpoint. */
  ghost predicate KernelSound(x: Binding, b: BindingId, endpoints: map<Place, EndpointState>) {
    && (Closed(x.state) || x.handle.Some? ==> PlaceOf(x) in endpoints && endpoints[PlaceOf(x)].acceptedFence >= x.fence)
    && (Closed(x.state) ==> !EnforcesOnly(endpoints[PlaceOf(x)], b))
  }

  ghost predicate BindingsOver(bindings: Bindings, endpoints: map<Place, EndpointState>) {
    forall b :: b in bindings ==> KernelSound(bindings[b], b, endpoints)
  }

  ghost predicate Safe(w: WorldState) {
    && Inv(w.k)
    && ReplayTrace(w.trace) == Some(w.k)
    && AllGenuine(w.k, w.sent)
    && EndpointsSound(w.k, w.endpoints)
    && BindingsOver(w.k.bindings, w.endpoints)
  }

  lemma StartSafe()
    ensures Safe(StartWorld())
  {
    InitialInv();
  }

  /* ---------- kernel steps ---------- */

  lemma GenuineStays(k: Kernel, k': Kernel, e: Effect)
    requires Stable(k, k') && Genuine(k, e)
    ensures Genuine(k', e)
  {
  }

  lemma WorldStays(k: Kernel, k': Kernel, sent: set<Effect>, endpoints: map<Place, EndpointState>)
    requires Stable(k, k') && AllGenuine(k, sent) && EndpointsSound(k, endpoints)
    ensures AllGenuine(k', sent) && EndpointsSound(k', endpoints)
  {
  }

  lemma EffectsOfGenuine(k: Kernel, op: Op, l: LeaseId)
    requires !op.Activate?
    ensures AllGenuine(k, EffectsOf(k, op, l))
  {
  }

  lemma BelowFencesGenuine(k: Kernel, l: LeaseId)
    ensures AllGenuine(k, BelowFences(k, l))
  {
  }

  lemma EndingGenuine(k: Kernel, l: LeaseId, code: int)
    ensures Fail(k, l).Accepted? ==> AllGenuine(k, Fail(k, l).effects)
    ensures Revoke(k, l).Accepted? ==> AllGenuine(k, Revoke(k, l).effects)
    ensures Expire(k, l).Accepted? ==> AllGenuine(k, Expire(k, l).effects)
    ensures Complete(k, l, code).Accepted? ==> AllGenuine(k, Complete(k, l, code).effects)
    ensures ReleaseLeaseStep(k, l).Accepted? ==> AllGenuine(k, ReleaseLeaseStep(k, l).effects)
  {
    EffectsOfGenuine(k, Fence, l);
    EffectsOfGenuine(k, Release, l);
    BelowFencesGenuine(k, l);
    hide Genuine, EffectsOf, BelowFences, HasLiveBelow, CascadeLeases;
  }

  lemma DriveGenuine(k: Kernel, b: BindingId)
    requires TwoPhase(k.leases, k.bindings) && BindingsSound(k.leases, k.bindings)
    ensures ActivateBindingStep(k, b).Accepted? ==> AllGenuine(k, ActivateBindingStep(k, b).effects)
    ensures FenceBindingStep(k, b).Accepted? ==> AllGenuine(k, FenceBindingStep(k, b).effects)
    ensures FailBindingStep(k, b).Accepted? ==> AllGenuine(k, FailBindingStep(k, b).effects)
    ensures ReleaseBindingStep(k, b).Accepted? ==> AllGenuine(k, ReleaseBindingStep(k, b).effects)
  {
  }

  lemma BindGenuine(k: Kernel, c: Command)
    requires c.OpenBinding? && Bind(k, c).Accepted?
    ensures AllGenuine(Bind(k, c).k, Bind(k, c).effects)
  {
  }

  lemma FailedAckGenuine(k: Kernel, b: BindingId, session: nat, fence: nat)
    requires FailedAck(k, b, session, fence).Accepted?
    ensures AllGenuine(FailedAck(k, b, session, fence).k, FailedAck(k, b, session, fence).effects)
  {
  }

  lemma NoEffectsGenuine(k: Kernel)
    ensures AllGenuine(k, {})
  {
  }

  ghost predicate EndsLease(c: Command) {
    c.FailLease? || c.ReleaseLease? || c.CompleteLease? || c.RevokeLease? || c.ExpireLease?
  }

  lemma LeaseEndGenuine(k: Kernel, c: Command)
    requires EndsLease(c) && Step(k, c).Accepted?
    ensures AllGenuine(k, Step(k, c).effects)
  {
    hide Genuine, AllGenuine, Fail, ReleaseLeaseStep, Complete, Revoke, Expire;
    EndingGenuine(k, c.lease, if c.CompleteLease? then c.exitCode else 0);
  }

  lemma ReconcileGenuine(k: Kernel, c: Command)
    requires c.SetAgentSession? && Step(k, c).Accepted?
    ensures AllGenuine(Step(k, c).k, Step(k, c).effects)
  {
  }

  /** Every effect of an accepted command names a binding of the new state with its place
      and fence, and no activation is emitted before its lease is fully prepared. */
  lemma StepGenuine(k: Kernel, c: Command)
    requires Inv(k) && Step(k, c).Accepted?
    ensures AllGenuine(Step(k, c).k, Step(k, c).effects)
  {
    hide Inv, Step, Stable, AllGenuine, TwoPhase, BindingsSound;
    PhasesOf(k);
    StepStable(k, c);
    var k' := Step(k, c).k;
    if EndsLease(c) {
      LeaseEndGenuine(k, c);
      SentStays(k, k', Step(k, c).effects);
    } else if c.ActivateBinding? || c.FenceBinding? || c.FailBinding? || c.ReleaseBinding? {
      DriveStepGenuine(k, c);
      SentStays(k, k', Step(k, c).effects);
    } else if c.OpenBinding? || c.RecordFailed? || c.SetAgentSession? {
      NewStateGenuine(k, c);
    } else {
      QuietStep(k, c);
      NoEffectsGenuine(k');
    }
  }

  lemma DriveStepGenuine(k: Kernel, c: Command)
    requires TwoPhase(k.leases, k.bindings) && BindingsSound(k.leases, k.bindings) && Step(k, c).Accepted?
    requires c.ActivateBinding? || c.FenceBinding? || c.FailBinding? || c.ReleaseBinding?
    ensures AllGenuine(k, Step(k, c).effects)
  {
    hide TwoPhase, BindingsSound, AllGenuine, ActivateBindingStep, FenceBindingStep, FailBindingStep,
         ReleaseBindingStep;
    DriveGenuine(k, c.binding);
  }

  lemma NewStateGenuine(k: Kernel, c: Command)
    requires Step(k, c).Accepted? && (c.OpenBinding? || c.RecordFailed? || c.SetAgentSession?)
    ensures AllGenuine(Step(k, c).k, Step(k, c).effects)
  {
    hide AllGenuine, Bind, FailedAck, AgentSession;
    if c.OpenBinding? {
      BindGenuine(k, c);
    } else if c.RecordFailed? {
      FailedAckGenuine(k, c.binding, c.session, c.fence);
    } else {
      ReconcileGenuine(k, c);
    }
  }

  lemma SentStays(k: Kernel, k': Kernel, sent: set<Effect>)
    requires Stable(k, k') && AllGenuine(k, sent)
    ensures AllGenuine(k', sent)
  {
  }

  lemma PhasesOf(k: Kernel)
    requires Inv(k)
    ensures TwoPhase(k.leases, k.bindings) && BindingsSound(k.leases, k.bindings)
  {
  }

  /* ---------- which commands close or acknowledge ---------- */

  /** `y` is `x` after a step that neither closed it nor counted a prepare for it. */
  ghost predicate NoAck(x: Binding, y: Binding) {
    Later(x, y) && (Closed(y.state) ==> Closed(x.state)) && (y.handle.Some? ==> x.handle.Some?)
  }

  /** The step neither closed `b` nor counted a prepare for it. */
  ghost predicate NoAckAt(k: Kernel, k': Kernel, b: BindingId) {
    && b in k'.bindings
    && (if b in k.bindings then NoAck(k.bindings[b], k'.bindings[b])
        else !Closed(k'.bindings[b].state) && k'.bindings[b].handle.None?)
  }

  lemma BindNoAck(k: Kernel, c: Command)
    requires c.OpenBinding? && Bind(k, c).Accepted?
    ensures NoAckAt(k, Bind(k, c).k, c.binding)
  {
    hide MayBind, SessionOf, EffectFor;
  }

  lemma DrivesNoAck(k: Kernel, b: BindingId, session: nat)
    ensures ActivateBindingStep(k, b).Accepted? ==> NoAckAt(k, ActivateBindingStep(k, b).k, b)
    ensures FailBindingStep(k, b).Accepted? ==> NoAckAt(k, FailBindingStep(k, b).k, b)
    ensures Rebind(k, b, session).Accepted? ==> NoAckAt(k, Rebind(k, b, session).k, b)
  {
    hide SessionOf, EffectFor;
  }

  lemma DriveNoAck(k: Kernel, c: Command)
    requires IsDrive(c) && Step(k, c).Accepted?
    ensures NoAckAt(k, Step(k, c).k, c.binding)
  {
    hide NoAckAt, Bind, ActivateBindingStep, FailBindingStep, Rebind;
    if c.OpenBinding? {
      BindNoAck(k, c);
    } else {
      DrivesNoAck(k, c.binding, if c.RebindSession? then c.session else 0);
    }
  }

  /** Anything but an acknowledgement closes no binding and counts no prepare. */
  lemma NonAckKeeps(k: Kernel, c: Command, endpoints: map<Place, EndpointState>)
    requires Step(k, c).Accepted? && !IsAck(c) && BindingsOver(k.bindings, endpoints)
    ensures BindingsOver(Step(k, c).k.bindings, endpoints)
  {
    var k' := Step(k, c).k;
    forall b | b in k'.bindings
      ensures KernelSound(k'.bindings[b], b, endpoints)
    {
      BindingChanges(k, c, b);
      if IsDrive(c) {
        DriveNoAck(k, c);
      }
      hide Step;
      assert WritesBinding(c, b) || SameBinding(k, k', b);
    }
  }

  /** The acknowledgement was at the fence of `b`; only a close closes, only a prepare counts. */
  ghost predicate AckedAt(k: Kernel, k': Kernel, b: BindingId, fence: nat, closes: bool, prepares: bool) {
    && b in k.bindings && b in k'.bindings
    && (var x, y := k.bindings[b], k'.bindings[b];
        && fence == x.fence && Later(x, y)
        && (Closed(y.state) ==> Closed(x.state) || closes)
        && (y.handle.Some? ==> x.handle.Some? || prepares))
  }

  lemma AckAt(k: Kernel, b: BindingId, session: nat, handle: nat, fence: nat, s: BindingState)
    requires Closed(s)
    ensures PreparedAck(k, b, session, handle, fence).Accepted? ==>
              AckedAt(k, PreparedAck(k, b, session, handle, fence).k, b, fence, false, true)
    ensures ActiveAck(k, b, session, fence).Accepted? ==>
              AckedAt(k, ActiveAck(k, b, session, fence).k, b, fence, false, false)
    ensures ClosedAck(k, b, session, fence, s).Accepted? ==>
              AckedAt(k, ClosedAck(k, b, session, fence, s).k, b, fence, true, false)
  {
    hide SessionOf;
  }

  lemma FailedAckAt(k: Kernel, b: BindingId, session: nat, fence: nat)
    requires FailedAck(k, b, session, fence).Accepted?
    ensures AckedAt(k, FailedAck(k, b, session, fence).k, b, fence, false, false)
  {
    hide SessionOf, EffectsOf;
  }

  lemma AckOne(k: Kernel, c: Command)
    requires IsAck(c) && Step(k, c).Accepted?
    ensures AckedAt(k, Step(k, c).k, c.binding, c.fence, c.RecordReleased? || c.RecordFenced?, c.RecordPrepared?)
  {
    hide AckedAt, PreparedAck, ActiveAck, ClosedAck, FailedAck;
    if c.RecordFailed? {
      FailedAckAt(k, c.binding, c.session, c.fence);
    } else {
      AckAt(k, c.binding, c.session, if c.RecordPrepared? then c.handle else 0, c.fence,
            if c.RecordReleased? then BReleased else BFenced);
    }
  }

  /** An acknowledgement keeps the picture if the endpoint vouches for it. */
  lemma AckKeeps(k: Kernel, c: Command, endpoints: map<Place, EndpointState>)
    requires Step(k, c).Accepted? && IsAck(c) && BindingsOver(k.bindings, endpoints)
    requires c.binding in k.bindings && Vouched(k.bindings[c.binding], c, endpoints)
    ensures BindingsOver(Step(k, c).k.bindings, endpoints)
  {
    hide Step, KernelSound, Vouched, AckedAt;
    var k' := Step(k, c).k;
    AckOne(k, c);
    forall b | b in k'.bindings
      ensures KernelSound(k'.bindings[b], b, endpoints)
    {
      BindingChanges(k, c, b);
      if b == c.binding {
        VouchedKeeps(k, k', c, endpoints);
      }
    }
  }

  lemma VouchedKeeps(k: Kernel, k': Kernel, c: Command, endpoints: map<Place, EndpointState>)
    requires IsAck(c) && c.binding in k.bindings && KernelSound(k.bindings[c.binding], c.binding, endpoints)
    requires AckedAt(k, k', c.binding, c.fence, c.RecordReleased? || c.RecordFenced?, c.RecordPrepared?)
    requires Vouched(k.bindings[c.binding], c, endpoints)
    ensures KernelSound(k'.bindings[c.binding], c.binding, endpoints)
  {
  }

  /** The endpoint accepted the generation a prepare acknowledges, and no longer enforces
      what a close acknowledges. */
  ghost predicate Vouched(x: Binding, c: Command, endpoints: map<Place, EndpointState>)
    requires IsAck(c)
  {
    c.RecordPrepared? || c.RecordReleased? || c.RecordFenced? ==>
      && PlaceOf(x) in endpoints && endpoints[PlaceOf(x)].acceptedFence >= x.fence
      && (!c.RecordPrepared? ==> !EnforcesOnly(endpoints[PlaceOf(x)], c.binding))
  }

  /* ---------- delivery ---------- */

  /** What acting on a genuine effect leaves at the endpoint it names. */
  lemma ActedEndpoint(w: WorldState, e: Effect)
    requires EndpointsSound(w.k, w.endpoints) && e.Drive? && Genuine(w.k, e)
    ensures EndpointSound(w.k, (e.provider, e.node), AnswerTo(w, e).endpoint)
    ensures EndpointAt(w, (e.provider, e.node), e.session).acceptedFence <= AnswerTo(w, e).endpoint.acceptedFence
    ensures AnswerTo(w, e).ok && e.op.Prepare? ==> AnswerTo(w, e).endpoint.acceptedFence >= e.fence
    ensures AnswerTo(w, e).ok && (e.op.Release? || e.op.Fence?) ==>
              AnswerTo(w, e).endpoint.acceptedFence >= e.fence && !EnforcesOnly(AnswerTo(w, e).endpoint, e.binding)
  {
  }

  /** A binding already over at its endpoint is not opened again by a late effect. */
  lemma ActedKeepsOver(w: WorldState, e: Effect, b: BindingId)
    requires BindingsOver(w.k.bindings, w.endpoints) && e.Drive? && Genuine(w.k, e) && b in w.k.bindings
    ensures KernelSound(w.k.bindings[b], b, w.endpoints[(e.provider, e.node) := AnswerTo(w, e).endpoint])
  {
  }

  lemma ActedSafe(w: WorldState, e: Effect)
    requires Safe(w) && e in w.sent && e.Drive?
    ensures Safe(Acted(w, e))
  {
    hide Inv, ReplayTrace;
    assert Genuine(w.k, e);
    hide AllGenuine, Genuine, EndpointSound, KernelSound, Operate, Taken;
    if Taken(w, e) {
      ActedEndpoint(w, e);
      forall b | b in w.k.bindings
        ensures KernelSound(w.k.bindings[b], b, w.endpoints[(e.provider, e.node) := AnswerTo(w, e).endpoint])
      {
        ActedKeepsOver(w, e, b);
      }
    }
  }

  lemma ActedVouches(w: WorldState, e: Effect)
    requires Safe(w) && e in w.sent && e.Drive? && Taken(w, e)
    ensures e.binding in w.k.bindings
    ensures var ack := AckFor(e.op, AnswerTo(w, e).ok, e.binding, e.session, w.nextHandle, e.fence);
            ack.Some? ==> IsAck(ack.value) && Vouched(w.k.bindings[e.binding], ack.value, Acted(w, e).endpoints)
  {
    hide Inv, ReplayTrace;
    assert Genuine(w.k, e);
    hide AllGenuine, EndpointSound, Operate, FullyPrepared;
    ActedEndpoint(w, e);
  }

  lemma TraceOne(trace: seq<Event>, k: Kernel, e: Event)
    requires ReplayTrace(trace) == Some(k) && (e.Cmd? ==> Step(k, e.c).Accepted?)
    ensures ReplayTrace(trace + [e]) == Some(After(k, e))
  {
  }

  lemma UnionGenuine(k: Kernel, a: set<Effect>, b: set<Effect>)
    requires AllGenuine(k, a) && AllGenuine(k, b)
    ensures AllGenuine(k, a + b)
  {
  }

  /** Committing a command keeps the world safe; an acknowledgement must be vouched for. */
  lemma CommitSafe(w: WorldState, c: Command)
    requires Safe(w)
    requires IsAck(c) ==> c.binding in w.k.bindings && Vouched(w.k.bindings[c.binding], c, w.endpoints)
    ensures Safe(Commit(w, c))
  {
    var o := Step(w.k, c);
    if o.Accepted? {
      StepKeeps(w.k, c);
      StepStable(w.k, c);
      StepGenuine(w.k, c);
      TraceOne(w.trace, w.k, Cmd(c));
      if IsAck(c) { AckKeeps(w.k, c, w.endpoints); } else { NonAckKeeps(w.k, c, w.endpoints); }
      assert After(w.k, Cmd(c)) == o.k;
      hide Inv, Step, Stable, ReplayTrace, After, AllGenuine, EndpointsSound, BindingsOver;
      WorldStays(w.k, o.k, w.sent, w.endpoints);
      UnionGenuine(o.k, w.sent, o.effects);
    }
  }

  lemma DeliveredSafe(w: WorldState, e: Effect)
    requires Safe(w) && e in w.sent && e.Drive?
    ensures Safe(Delivered(w, e))
  {
    hide Safe;
    ActedSafe(w, e);
    if Taken(w, e) {
      ActedVouches(w, e);
      var ack := AckFor(e.op, AnswerTo(w, e).ok, e.binding, e.session, w.nextHandle, e.fence);
      if ack.Some? {
        CommitSafe(Acted(w, e), ack.value);
      }
    }
  }

  /* ---------- reconciliation, restarts ---------- */

  lemma SendSafe(w: WorldState, e: Effect)
    requires Safe(w) && Genuine(w.k, e)
    ensures Safe(Send(w, e))
  {
    hide Inv, ReplayTrace, Genuine, EndpointsSound, BindingsOver;
  }

  lemma DriveForGenuine(w: WorldState, k': Kernel, op: Op, b: BindingId, session: nat, epoch: nat)
    requires Inv(w.k) && Stable(w.k, k') && b in w.k.bindings && (op.Activate? ==> w.k.bindings[b].state.BActive?)
    ensures Genuine(k', DriveFor(w, op, b, session, epoch))
  {
    GenuineStays(w.k, k', DriveFor(w, op, b, session, epoch));
  }

  lemma SafeKernel(w: WorldState)
    requires Safe(w)
    ensures Inv(w.k)
  {
  }

  lemma AdoptedSafe(w: WorldState, b: BindingId, session: nat, epoch: nat, op: Op)
    requires Safe(w) && b in w.k.bindings && Step(w.k, RebindSession(b, session)).Accepted?
    requires op.Activate? ==> w.k.bindings[b].state.BActive?
    ensures Safe(Send(Commit(w, RebindSession(b, session)), DriveFor(w, op, b, session, epoch)))
  {
    hide Safe, Inv, Stable, Step, Genuine;
    var c := RebindSession(b, session);
    SafeKernel(w);
    CommitSafe(w, c);
    StepStable(w.k, c);
    DriveForGenuine(w, Commit(w, c).k, op, b, session, epoch);
    SendSafe(Commit(w, c), DriveFor(w, op, b, session, epoch));
  }

  lemma FencedSafe(w: WorldState, b: BindingId, session: nat, epoch: nat)
    requires Safe(w) && b in w.k.bindings
    ensures Safe(Send(w, DriveFor(w, Fence, b, session, epoch)))
  {
    hide Safe, Inv, Stable, Step, Genuine;
    SafeKernel(w);
    LeasesStable(w.k, w.k);
    DriveForGenuine(w, w.k, Fence, b, session, epoch);
    SendSafe(w, DriveFor(w, Fence, b, session, epoch));
  }

  lemma ReconciledSafe(w: WorldState, b: BindingId, session: nat, epoch: nat, refail: bool)
    requires Safe(w)
    ensures Safe(Reconciled(w, b, session, epoch, refail))
  {
    hide Safe, Proven, LeaseLive, Step, Commit;
    if b in w.k.bindings {
      var c := RebindSession(b, session);
      CommitSafe(w, c);
      CommitSafe(w, FailLease(w.k.bindings[b].lease));
      FencedSafe(w, b, session, epoch);
      if Step(w.k, c).Accepted? {
        AdoptedSafe(w, b, session, epoch, Prepare);
        if w.k.bindings[b].state.BActive? { AdoptedSafe(w, b, session, epoch, Activate); }
      }
    }
  }

  lemma SweptSafe(w: WorldState, place: Place, session: nat, epoch: nat)
    requires Safe(w)
    ensures Safe(Swept(w, place, session, epoch))
  {
    if place in w.endpoints && w.endpoints[place].open {
      var e := w.endpoints[place];
      assert EndpointSound(w.k, place, e);
      SendSafe(w, Drive(Fence, e.binding.value, place.1, place.0, e.acceptedFence, session, epoch));
    }
    hide Inv, ReplayTrace, Genuine, EndpointsSound, BindingsOver;
  }

  lemma GreetingSafe(w: WorldState, machine: NodeId, session: nat, places: set<Place>)
    requires Safe(w)
    ensures Safe(Greeting(w, machine, session, places))
  {
    var w' := Greeting(w, machine, session, places);
    hide Inv, ReplayTrace, AllGenuine, FullyPrepared;
    assert EndpointsSound(w.k, w'.endpoints);
    forall b | b in w.k.bindings
      ensures KernelSound(w.k.bindings[b], b, w'.endpoints)
    {
      assert KernelSound(w.k.bindings[b], b, w.endpoints);
    }
  }

  lemma EventSafe(w: WorldState, e: Event)
    requires Safe(w) && !e.Cmd?
    ensures Safe(w.(k := After(w.k, e), trace := w.trace + [e]))
  {
    hide Inv, Step, ReplayTrace, AllGenuine, EndpointsSound, BindingsOver, Stable;
    assert After(w.k, e).bindings == w.k.bindings;
    hide After;
    AfterKeeps(w.k, e);
    AfterStable(w.k, e);
    TraceOne(w.trace, w.k, e);
    WorldStays(w.k, After(w.k, e), w.sent, w.endpoints);
  }

  /** Every enabled move keeps the world safe. */
  lemma NextSafe(w: WorldState, m: Move)
    requires Safe(w) && Enabled(w, m)
    ensures Safe(Next(w, m))
  {
    match m
    case Env(e) =>
      hide Safe, Commit, After;
      if e.Cmd? { CommitSafe(w, e.c); } else { EventSafe(w, e); }
    case Deliver(e) =>
      hide Safe, Delivered;
      DeliveredSafe(w, e);
    case Greet(machine, session, places) =>
      hide Safe, Greeting;
      GreetingSafe(w, machine, session, places);
    case ReconcileBinding(b, session, epoch, refail) =>
      hide Safe, Reconciled;
      ReconciledSafe(w, b, session, epoch, refail);
    case SweepEndpoint(place, session, epoch) =>
      hide Safe, Swept;
      SweptSafe(w, place, session, epoch);
    case _ =>
      hide Inv, ReplayTrace, AllGenuine, EndpointsSound, BindingsOver;
  }

  /** So does every schedule: this holds in every world any interleaving can reach. */
  lemma {:induction false} PlaySafe(w: WorldState, moves: seq<Move>)
    requires Safe(w) && Schedule(w, moves)
    ensures Safe(Play(w, moves))
  {
    hide Safe, Next, Enabled;
    if moves != [] {
      PlaySafe(w, moves[..|moves| - 1]);
      NextSafe(Play(w, moves[..|moves| - 1]), moves[|moves| - 1]);
    }
  }

  /* ---------- what safety means ---------- */

  predicate Enforces(w: WorldState, place: Place, b: BindingId) {
    place in w.endpoints && EnforcesOnly(w.endpoints[place], b)
  }

  lemma OpenIsCharged(w: WorldState, place: Place, b: BindingId)
    requires Safe(w) && Enforces(w, place, b)
    ensures b in w.k.bindings && !Closed(w.k.bindings[b].state) && PlaceOf(w.k.bindings[b]) == place
    ensures w.k.bindings[b].lease in Roots(w.k.leases, Occ(w.k.leases, w.k.bindings))
  {
    assert EndpointSound(w.k, place, w.endpoints[place]);
    assert KernelSound(w.k.bindings[b], b, w.endpoints);
    assert w.k.bindings[b].lease in OpenLeases(w.k.bindings);
    PhasesOf(w.k);
  }

  /** In every reachable world, whatever was delivered, lost, repeated or restarted: while
      an endpoint enforces a binding, the kernel has not closed that binding and still
      charges its lease. Capacity is never freed under an endpoint that enforces it. */
  lemma EnforcedIsCharged(moves: seq<Move>, place: Place, b: BindingId)
    requires Schedule(StartWorld(), moves) && Enforces(Play(StartWorld(), moves), place, b)
    ensures var k := Play(StartWorld(), moves).k;
            && b in k.bindings && !Closed(k.bindings[b].state) && PlaceOf(k.bindings[b]) == place
            && k.bindings[b].lease in Roots(k.leases, Occ(k.leases, k.bindings))
  {
    StartSafe();
    PlaySafe(StartWorld(), moves);
    hide Schedule, Play, Safe;
    OpenIsCharged(Play(StartWorld(), moves), place, b);
  }

  /** The leases some endpoint enforces right now. */
  ghost function EnforcedLeases(w: WorldState): set<LeaseId> {
    set p | p in w.endpoints && w.endpoints[p].open && w.endpoints[p].binding.Some?
            && w.endpoints[p].binding.value in w.k.bindings :: w.k.bindings[w.endpoints[p].binding.value].lease
  }

  /** What all endpoints together enforce fits the capacity of every node, always. */
  lemma EnforcementFitsCapacity(moves: seq<Move>, n: NodeId, d: Dimension)
    requires Schedule(StartWorld(), moves)
    ensures var w := Play(StartWorld(), moves);
            Usage(w.k.leases, EnforcedLeases(w), n, d) <= Get(CapacityOf(w.k.graph, n), d)
  {
    StartSafe();
    PlaySafe(StartWorld(), moves);
    var w := Play(StartWorld(), moves);
    hide Schedule, Play;
    EnforcedFits(w, n, d);
  }

  lemma EnforcedFits(w: WorldState, n: NodeId, d: Dimension)
    requires Safe(w)
    ensures Usage(w.k.leases, EnforcedLeases(w), n, d) <= Get(CapacityOf(w.k.graph, n), d)
  {
    var roots := Roots(w.k.leases, Occ(w.k.leases, w.k.bindings));
    assert Usage(w.k.leases, roots, n, d) <= Get(CapacityOf(w.k.graph, n), d);
    hide Safe, Inv;
    forall l | l in EnforcedLeases(w)
      ensures l in roots
    {
      var p :| p in w.endpoints && w.endpoints[p].open && w.endpoints[p].binding.Some?
               && w.endpoints[p].binding.value in w.k.bindings && l == w.k.bindings[w.endpoints[p].binding.value].lease;
      OpenIsCharged(w, p, w.endpoints[p].binding.value);
    }
    UsageMonotone(w.k.leases, EnforcedLeases(w), roots, n, d);
  }

  /** Two-phase activation end to end: an endpoint enforces actively only once some
      binding of the same lease reached the endpoint of every node the lease claims. */
  lemma ActiveOnlyWhenAllPrepared(w: WorldState, place: Place, b: BindingId, i: nat)
    requires Safe(w) && Enforces(w, place, b) && w.endpoints[place].phase == Enforcing
    requires b in w.k.bindings && w.k.bindings[b].lease in w.k.leases && i < |w.k.leases[w.k.bindings[b].lease].claims|
    ensures exists a :: a in w.k.bindings && w.k.bindings[a].lease == w.k.bindings[b].lease
              && w.k.bindings[a].node == w.k.leases[w.k.bindings[b].lease].claims[i].node
              && PlaceOf(w.k.bindings[a]) in w.endpoints
              && w.endpoints[PlaceOf(w.k.bindings[a])].acceptedFence >= w.k.bindings[a].fence
  {
    assert EndpointSound(w.k, place, w.endpoints[place]);
    var l := w.k.bindings[b].lease;
    assert Acked(w.k.bindings, l, w.k.leases[l].claims[i].node);
    var a :| a in w.k.bindings && w.k.bindings[a].lease == l && w.k.bindings[a].node == w.k.leases[l].claims[i].node
             && w.k.bindings[a].handle.Some?;
    assert KernelSound(w.k.bindings[a], a, w.endpoints);
  }

  /** A restarted controller rebuilds exactly the state it had. */
  lemma RestartRebuilds(w: WorldState)
    requires Safe(w)
    ensures Next(w, RestartController) == w
  {
    hide Inv, ReplayTrace, AllGenuine, EndpointsSound, BindingsOver;
  }
}
