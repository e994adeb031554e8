/** Replaying the log of accepted commands (`Cluster::replay`). */
module Replay {
  import opened ResourceGraph
  import opened Facts
  import opened Occupancy
  import opened Kernel
  import opened Runs

  /** `r` is ready to replay what `k` decided: same decisions so far, clock ignored. */
  ghost predicate Mirrors(r: Kernel, k: Kernel) {
    SameDecisions(r, k) && r.agreed && r.replaying
  }

  /** The replayed kernel accepts whatever the original accepted, whatever the clock,
      the agreement and the epoch were, and decides the same. */
  ghost predicate Follows(o: Outcome, p: Outcome) {
    o.Accepted? ==> p.Accepted? && Mirrors(p.k, o.k)
  }

  lemma QueriesAgree(k: Kernel, r: Kernel)
    requires Mirrors(r, k)
    ensures forall n :: NodeQuarantined(r, n) == NodeQuarantined(k, n)
    ensures forall n :: SessionOf(r, n) == SessionOf(k, n)
    ensures forall except :: OccupancyExcept(r, except) == OccupancyExcept(k, except)
    ensures forall n :: NodeStateOf(r, n) == NodeStateOf(k, n)
  {
  }

  lemma InstallFollows(k: Kernel, r: Kernel, staged: Option<Graph>)
    requires Mirrors(r, k)
    ensures Follows(Install(k, staged), Install(r, staged))
  {
  }

  lemma AdoptFollows(k: Kernel, r: Kernel, assignments: seq<WriterAssignment>)
    requires Mirrors(r, k)
    ensures Follows(Adopt(k, assignments), Adopt(r, assignments))
  {
  }

  lemma OpeningFollows(k: Kernel, r: Kernel, c: Command)
    requires Mirrors(r, k)
    ensures c.ReserveLease? ==> Follows(Reserve(k, c), Reserve(r, c))
    ensures c.OpenLease? ==> Follows(Open(k, c), Open(r, c))
  {
  }

  lemma ActivatingFollows(k: Kernel, r: Kernel, id: LeaseId, deadline: nat)
    requires Mirrors(r, k)
    ensures Follows(Promote(k, id, deadline), Promote(r, id, deadline))
    ensures Follows(ActivateLeaseStep(k, id), ActivateLeaseStep(r, id))
  {
  }

  lemma EndingFollows(k: Kernel, r: Kernel, id: LeaseId, at: nat)
    requires Mirrors(r, k)
    ensures Follows(Fail(k, id), Fail(r, id))
    ensures Follows(Revoke(k, id), Revoke(r, id))
    ensures Follows(Renew(k, id, at), Renew(r, id, at))
  {
    hide CascadeLeases, BelowFences, EffectsOf;
  }

  lemma TimedEndingFollows(k: Kernel, r: Kernel, id: LeaseId, code: int)
    requires Mirrors(r, k)
    ensures Follows(Expire(k, id), Expire(r, id))
    ensures Follows(Complete(k, id, code), Complete(r, id, code))
  {
    hide CascadeLeases, BelowFences, EffectsOf;
  }

  lemma ReleaseFollows(k: Kernel, r: Kernel, id: LeaseId)
    requires Mirrors(r, k)
    ensures Follows(ReleaseLeaseStep(k, id), ReleaseLeaseStep(r, id))
  {
  }

  lemma BindingFollows(k: Kernel, r: Kernel, c: Command)
    requires Mirrors(r, k) && c.OpenBinding?
    ensures Follows(Bind(k, c), Bind(r, c))
  {
  }

  lemma AcksFollow(k: Kernel, r: Kernel, b: BindingId, session: nat, handle: nat, fence: nat, s: BindingState)
    requires Mirrors(r, k)
    ensures Follows(PreparedAck(k, b, session, handle, fence), PreparedAck(r, b, session, handle, fence))
    ensures Follows(ActiveAck(k, b, session, fence), ActiveAck(r, b, session, fence))
    ensures Follows(ClosedAck(k, b, session, fence, s), ClosedAck(r, b, session, fence, s))
    ensures Follows(Rebind(k, b, session), Rebind(r, b, session))
  {
    QueriesAgree(k, r);
    hide SessionOf;
  }

  lemma FailedAckFollows(k: Kernel, r: Kernel, b: BindingId, session: nat, fence: nat)
    requires Mirrors(r, k)
    ensures Follows(FailedAck(k, b, session, fence), FailedAck(r, b, session, fence))
  {
  }

  lemma DrivesFollow(k: Kernel, r: Kernel, b: BindingId)
    requires Mirrors(r, k)
    ensures Follows(ActivateBindingStep(k, b), ActivateBindingStep(r, b))
    ensures Follows(FenceBindingStep(k, b), FenceBindingStep(r, b))
    ensures Follows(FailBindingStep(k, b), FailBindingStep(r, b))
    ensures Follows(ReleaseBindingStep(k, b), ReleaseBindingStep(r, b))
  {
  }

  lemma MachinesFollow(k: Kernel, r: Kernel, n: NodeId, session: nat, p: ProviderId, health: string)
    requires Mirrors(r, k)
    ensures Follows(AgentSession(k, n, session), AgentSession(r, n, session))
    ensures Follows(AdvanceFence(k, n, p, session), AdvanceFence(r, n, p, session))
    ensures Follows(Observe(k, n, health), Observe(r, n, health))
  {
    hide LiveMachineBindings;
  }

  lemma NodeStateFollows(k: Kernel, r: Kernel, n: NodeId, s: NodeState)
    requires Mirrors(r, k)
    ensures Follows(SetNode(k, n, s), SetNode(r, n, s))
  {
  }

  lemma UnquarantineFollows(k: Kernel, r: Kernel, n: NodeId)
    requires Mirrors(r, k)
    ensures Follows(Unquarantine(k, n), Unquarantine(r, n))
  {
  }

  lemma EnforcementFollows(k: Kernel, r: Kernel, c: Command)
    requires Mirrors(r, k) && ConcernsBindings(c)
    ensures Follows(Step(k, c), Step(r, c))
  {
    hide Mirrors, Follows, Step;
    if c.OpenBinding? || c.ActivateBinding? || c.FenceBinding? || c.FailBinding? || c.ReleaseBinding? {
      DrivingFollows(k, r, c);
    } else if c.RecordPrepared? || c.RecordActive? || c.RecordReleased? || c.RecordFenced? || c.RecordFailed?
              || c.RebindSession? {
      AnsweringFollows(k, r, c);
    } else {
      MachineStepFollows(k, r, c);
    }
  }

  lemma DrivingFollows(k: Kernel, r: Kernel, c: Command)
    requires Mirrors(r, k)
    requires c.OpenBinding? || c.ActivateBinding? || c.FenceBinding? || c.FailBinding? || c.ReleaseBinding?
    ensures Follows(Step(k, c), Step(r, c))
  {
    hide Mirrors, Follows, Install, ApplyUnowned, ApplyResourceFacts, ApplyProviderFacts, Adopt, Reserve, Promote, Open;
    hide ActivateLeaseStep, Fail, ReleaseLeaseStep, Complete, Revoke, Expire, Renew, Bind, ActivateBindingStep;
    hide FenceBindingStep, ReleaseBindingStep, Unquarantine;
    hide FailBindingStep, PreparedAck, ActiveAck, ClosedAck, FailedAck, AgentSession, Observe, SetNode, Rebind;
    hide AdvanceFence;
    match c
    case OpenBinding(_, _, _, _, _) => BindingFollows(k, r, c);
    case ActivateBinding(b) => DrivesFollow(k, r, b);
    case FenceBinding(b) => DrivesFollow(k, r, b);
    case FailBinding(b) => DrivesFollow(k, r, b);
    case ReleaseBinding(b) => DrivesFollow(k, r, b);
  }

  lemma AnsweringFollows(k: Kernel, r: Kernel, c: Command)
    requires Mirrors(r, k)
    requires c.RecordPrepared? || c.RecordActive? || c.RecordReleased? || c.RecordFenced? || c.RecordFailed?
             || c.RebindSession?
    ensures Follows(Step(k, c), Step(r, c))
  {
    hide Mirrors, Follows, Install, ApplyUnowned, ApplyResourceFacts, ApplyProviderFacts, Adopt, Reserve, Promote, Open;
    hide ActivateLeaseStep, Fail, ReleaseLeaseStep, Complete, Revoke, Expire, Renew, Bind, ActivateBindingStep;
    hide FenceBindingStep, ReleaseBindingStep, Unquarantine;
    hide FailBindingStep, PreparedAck, ActiveAck, ClosedAck, FailedAck, AgentSession, Observe, SetNode, Rebind;
    hide AdvanceFence;
    match c
    case RecordPrepared(b, session, handle, fence) => AcksFollow(k, r, b, session, handle, fence, BFenced);
    case RecordActive(b, session, fence) => AcksFollow(k, r, b, session, 0, fence, BFenced);
    case RecordReleased(b, session, fence) => AcksFollow(k, r, b, session, 0, fence, BReleased);
    case RecordFenced(b, session, fence) => AcksFollow(k, r, b, session, 0, fence, BFenced);
    case RecordFailed(b, session, fence) => FailedAckFollows(k, r, b, session, fence);
    case RebindSession(b, session) => AcksFollow(k, r, b, session, 0, 0, BFenced);
  }

  lemma MachineStepFollows(k: Kernel, r: Kernel, c: Command)
    requires Mirrors(r, k)
    requires c.SetAgentSession? || c.SetNodeHealth? || c.SetNodeState? || c.AdvanceEndpointFence?
             || c.QuarantineNode? || c.UnquarantineNode?
    ensures Follows(Step(k, c), Step(r, c))
  {
    hide Mirrors, Follows, Install, ApplyUnowned, ApplyResourceFacts, ApplyProviderFacts, Adopt, Reserve, Promote, Open;
    hide ActivateLeaseStep, Fail, ReleaseLeaseStep, Complete, Revoke, Expire, Renew, Bind, ActivateBindingStep;
    hide FenceBindingStep, ReleaseBindingStep, Unquarantine;
    hide FailBindingStep, PreparedAck, ActiveAck, ClosedAck, FailedAck, AgentSession, Observe, SetNode, Rebind;
    hide AdvanceFence;
    match c
    case SetAgentSession(m, session) => MachinesFollow(k, r, m, session, 0, "");
    case SetNodeHealth(n, health) => MachinesFollow(k, r, n, 0, 0, health);
    case SetNodeState(n, s) => NodeStateFollows(k, r, n, s);
    case AdvanceEndpointFence(n, p, fence) => MachinesFollow(k, r, n, fence, p, "");
    case QuarantineNode(n) => NodeStateFollows(k, r, n, Quarantined);
    case UnquarantineNode(n) => UnquarantineFollows(k, r, n);
  }

  lemma StartingFollows(k: Kernel, r: Kernel, c: Command)
    requires Mirrors(r, k) && (c.ReserveLease? || c.PromoteLease? || c.OpenLease? || c.ActivateLease?)
    ensures Follows(Step(k, c), Step(r, c))
  {
    assert r.graph == k.graph;
    hide Mirrors, Follows, Install, ApplyUnowned, ApplyResourceFacts, ApplyProviderFacts, Adopt, Reserve, Promote, Open;
    hide ActivateLeaseStep, Fail, ReleaseLeaseStep, Complete, Revoke, Expire, Renew, Bind, ActivateBindingStep;
    hide FenceBindingStep, ReleaseBindingStep, Unquarantine;
    hide FailBindingStep, PreparedAck, ActiveAck, ClosedAck, FailedAck, AgentSession, Observe, SetNode, Rebind;
    hide AdvanceFence;
    match c
    case ReserveLease(_, _, _, _, _, _) => OpeningFollows(k, r, c);
    case PromoteLease(l, deadline) => ActivatingFollows(k, r, l, deadline);
    case OpenLease(_, _, _, _, _, _, _, _) => OpeningFollows(k, r, c);
    case ActivateLease(l) => ActivatingFollows(k, r, l, 0);
  }

  lemma StoppingFollows(k: Kernel, r: Kernel, c: Command)
    requires Mirrors(r, k)
    requires c.FailLease? || c.ReleaseLease? || c.CompleteLease? || c.RevokeLease? || c.ExpireLease? || c.RenewLease?
    ensures Follows(Step(k, c), Step(r, c))
  {
    hide Mirrors, Follows, Install, ApplyUnowned, ApplyResourceFacts, ApplyProviderFacts, Adopt, Reserve, Promote, Open;
    hide ActivateLeaseStep, Fail, ReleaseLeaseStep, Complete, Revoke, Expire, Renew, Bind, ActivateBindingStep;
    hide FenceBindingStep, ReleaseBindingStep, Unquarantine;
    hide FailBindingStep, PreparedAck, ActiveAck, ClosedAck, FailedAck, AgentSession, Observe, SetNode, Rebind;
    hide AdvanceFence;
    match c
    case FailLease(l) => EndingFollows(k, r, l, 0);
    case ReleaseLease(l) => ReleaseFollows(k, r, l);
    case CompleteLease(l, code) => TimedEndingFollows(k, r, l, code);
    case RevokeLease(l) => EndingFollows(k, r, l, 0);
    case ExpireLease(l) => TimedEndingFollows(k, r, l, 0);
    case RenewLease(l, at) => EndingFollows(k, r, l, at);
  }

  lemma FactsFollow(k: Kernel, r: Kernel, c: Command)
    requires Mirrors(r, k)
    requires c.ApplyGraphCmd? || c.ApplyResourceFactsCmd? || c.ApplyProviderFactsCmd? || c.AdoptFactWritersCmd?
    ensures Follows(Step(k, c), Step(r, c))
  {
    assert r.graph == k.graph;
    hide Mirrors, Follows, Install, ApplyUnowned, ApplyResourceFacts, ApplyProviderFacts, Adopt, Reserve, Promote, Open;
    hide ActivateLeaseStep, Fail, ReleaseLeaseStep, Complete, Revoke, Expire, Renew, Bind, ActivateBindingStep;
    hide FenceBindingStep, ReleaseBindingStep, Unquarantine;
    hide FailBindingStep, PreparedAck, ActiveAck, ClosedAck, FailedAck, AgentSession, Observe, SetNode, Rebind;
    hide AdvanceFence;
    match c
    case ApplyGraphCmd(nodes, edges) => InstallFollows(k, r, ApplyUnowned(k.graph, nodes, edges));
    case ApplyResourceFactsCmd(nodes, edges, updates) =>
      InstallFollows(k, r, ApplyResourceFacts(k.graph, nodes, edges, updates));
    case ApplyProviderFactsCmd(batches, updates) =>
      InstallFollows(k, r, ApplyProviderFacts(k.graph, batches, updates));
    case AdoptFactWritersCmd(assignments) => AdoptFollows(k, r, assignments);
  }

  /** One replayed command. */
  lemma StepFollows(k: Kernel, r: Kernel, c: Command)
    requires Mirrors(r, k)
    ensures Follows(Step(k, c), Step(r, c))
  {
    hide Step, Mirrors, Follows;
    if ConcernsBindings(c) {
      EnforcementFollows(k, r, c);
    } else if c.ReserveLease? || c.PromoteLease? || c.OpenLease? || c.ActivateLease? {
      StartingFollows(k, r, c);
    } else if c.ApplyGraphCmd? || c.ApplyResourceFactsCmd? || c.ApplyProviderFactsCmd? || c.AdoptFactWritersCmd? {
      FactsFollow(k, r, c);
    } else {
      StoppingFollows(k, r, c);
    }
  }

  /** The command log of a run: the accepted commands, in order. */
  ghost function Log(k: Kernel, events: seq<Event>): seq<Command> {
    if events == [] then []
    else
      var prefix, e := events[..|events| - 1], events[|events| - 1];
      if e.Cmd? && Step(Run(k, prefix), e.c).Accepted? then Log(k, prefix) + [e.c] else Log(k, prefix)
  }

  /** Applying a log in order; `None` as soon as one command is refused. */
  ghost function ReplayFrom(k: Kernel, log: seq<Command>): Option<Kernel> {
    if log == [] then Some(k)
    else
      match ReplayFrom(k, log[..|log| - 1])
      case None => None
      case Some(before) =>
        var o := Step(before, log[|log| - 1]);
        if o.Accepted? then Some(o.k) else None
  }

  ghost function ReplayStart(): Kernel {
    Initial().(replaying := true)
  }

  lemma EventFollows(k: Kernel, r: Kernel, e: Event)
    requires Mirrors(r, k)
    ensures e.Cmd? && Step(k, e.c).Accepted? ==> Step(r, e.c).Accepted? && Mirrors(Step(r, e.c).k, After(k, e))
    ensures !(e.Cmd? && Step(k, e.c).Accepted?) ==> Mirrors(r, After(k, e))
  {
    hide Step;
    if e.Cmd? {
      StepFollows(k, r, e.c);
    }
  }

  lemma ReplayOne(log: seq<Command>, c: Command)
    requires ReplayFrom(ReplayStart(), log).Some?
    ensures var o := Step(ReplayFrom(ReplayStart(), log).value, c);
            ReplayFrom(ReplayStart(), log + [c]) == if o.Accepted? then Some(o.k) else None
  {
    hide Step, ReplayStart;
    assert (log + [c])[..|log|] == log;
  }

  /** Replaying the accepted commands of any run from an empty cluster succeeds and
      rebuilds every decision, whatever the clock, agreement and epoch history was. */
  lemma {:induction false} ReplayRebuilds(events: seq<Event>)
    ensures var r := ReplayFrom(ReplayStart(), Log(Initial(), events));
            r.Some? && Mirrors(r.value, Run(Initial(), events))
  {
    if events != [] {
      hide Step, After, Mirrors, ReplayStart, Initial, ReplayFrom;
      var prefix, e := events[..|events| - 1], events[|events| - 1];
      ReplayRebuilds(prefix);
      var log := Log(Initial(), prefix);
      EventFollows(Run(Initial(), prefix), ReplayFrom(ReplayStart(), log).value, e);
      if e.Cmd? {
        ReplayOne(log, e.c);
      }
    }
  }
}
