/** Machine pinning: the machine that enforces a claim is fixed for as long as the
    claim occupies, and only that machine's current session can end the enforcement. */
module Pinning {
  import opened Forest
  import opened ResourceGraph
  import opened Facts
  import opened Occupancy
  import opened Kernel
  import opened Authority
  import opened Runs

  lemma OthersKeepGraph(k: Kernel, c: Command)
    requires !ChangesGraph(c) && Step(k, c).Accepted?
    ensures Step(k, c).k.graph == k.graph
  {
    hide Install, Adopt, Reserve, Promote, Open, ActivateLeaseStep, Fail, ReleaseLeaseStep, Complete, Revoke,
         Expire, Renew;
    hide Bind, ActivateBindingStep, FailBindingStep, PreparedAck, ActiveAck, ClosedAck, FailedAck, AgentSession,
         Observe;
    hide SetNode, Unquarantine, Rebind, AdvanceFence;
  }

  lemma SameTopologyMachines(g: Graph, h: Graph, n: NodeId)
    requires SameTopology(g, h)
    ensures MachineOf(g, n) == MachineOf(h, n)
  {
    FirstOfClassSame(g, h, [n] + Ancestors(g.parent, n), MACHINE);
  }

  /** No accepted command changes the machine of a node an occupying lease claims. */
  lemma StepPins(k: Kernel, c: Command, l: LeaseId, i: nat)
    requires Step(k, c).Accepted?
    requires l in Occ(k.leases, k.bindings) && i < |k.leases[l].claims|
    ensures MachineOf(Step(k, c).k.graph, k.leases[l].claims[i].node) == MachineOf(k.graph, k.leases[l].claims[i].node)
  {
    hide Step;
    if !ChangesGraph(c) {
      OthersKeepGraph(k, c);
    } else if c.AdoptFactWritersCmd? || c.SetNodeHealth? {
      TopologyPins(k, c, k.leases[l].claims[i].node);
    } else {
      InstallPins(k, c, l, i);
    }
  }

  lemma TopologyPins(k: Kernel, c: Command, n: NodeId)
    requires Step(k, c).Accepted? && (c.AdoptFactWritersCmd? || c.SetNodeHealth?)
    ensures MachineOf(Step(k, c).k.graph, n) == MachineOf(k.graph, n)
  {
    hide MachineOf, Adopted;
    if c.AdoptFactWritersCmd? {
      AdoptedKeeps(k.graph, c.assignments);
      SameTopologyMachines(k.graph, Adopted(k.graph, c.assignments), n);
    } else {
      SameTopologyMachines(k.graph, Step(k, c).k.graph, n);
    }
  }

  /** A new graph is installed only if it moves no claimed node to another machine. */
  lemma InstallPins(k: Kernel, c: Command, l: LeaseId, i: nat)
    requires Step(k, c).Accepted? && (c.ApplyGraphCmd? || c.ApplyResourceFactsCmd? || c.ApplyProviderFactsCmd?)
    requires l in Occ(k.leases, k.bindings) && i < |k.leases[l].claims|
    ensures MachineOf(Step(k, c).k.graph, k.leases[l].claims[i].node) == MachineOf(k.graph, k.leases[l].claims[i].node)
  {
    hide ApplyUnowned, ApplyResourceFacts, ApplyProviderFacts, CapacityHolds, MachineOf;
  }

  /** Bindings appear only on leases that are still preparing. */
  lemma NewBindingsOnPreparing(k: Kernel, c: Command, b: BindingId)
    requires Step(k, c).Accepted? && b in Step(k, c).k.bindings && b !in k.bindings
    ensures c.OpenBinding? && c.binding == b
    ensures Step(k, c).k.bindings[b].lease in k.leases && k.leases[Step(k, c).k.bindings[b].lease].state == Preparing
  {
    BindingChanges(k, c, b);
    hide Step;
    if c.OpenBinding? {
      NewBindingOf(k, c);
    }
  }

  lemma NewBindingOf(k: Kernel, c: Command)
    requires c.OpenBinding? && Step(k, c).Accepted? && c.binding !in k.bindings
    ensures c.binding in Step(k, c).k.bindings && Step(k, c).k.bindings[c.binding].lease == c.lease
    ensures c.lease in k.leases && k.leases[c.lease].state == Preparing
  {
  }

  ghost predicate SameBinding(k: Kernel, k': Kernel, b: BindingId) {
    (b in k.bindings <==> b in k'.bindings) && (b in k.bindings ==> k'.bindings[b] == k.bindings[b])
  }

  predicate IsAck(c: Command) {
    c.RecordPrepared? || c.RecordActive? || c.RecordReleased? || c.RecordFenced? || c.RecordFailed?
  }

  predicate IsDrive(c: Command) {
    c.OpenBinding? || c.ActivateBinding? || c.FailBinding? || c.RebindSession?
  }

  /** The commands that write the binding `b`. */
  predicate WritesBinding(c: Command, b: BindingId) {
    (IsAck(c) || IsDrive(c)) && c.binding == b
  }

  lemma WritesOne(k: Kernel, c: Command, b: BindingId, session: nat)
    ensures c.OpenBinding? && c.binding != b && Bind(k, c).Accepted? ==> SameBinding(k, Bind(k, c).k, b)
    ensures forall a :: a != b && ActivateBindingStep(k, a).Accepted? ==> SameBinding(k, ActivateBindingStep(k, a).k, b)
    ensures forall a :: a != b && FailBindingStep(k, a).Accepted? ==> SameBinding(k, FailBindingStep(k, a).k, b)
    ensures forall a :: a != b && Rebind(k, a, session).Accepted? ==> SameBinding(k, Rebind(k, a, session).k, b)
  {
    hide MayBind, SessionOf;
  }

  lemma AcksWriteOne(k: Kernel, a: BindingId, b: BindingId, session: nat, handle: nat, fence: nat, s: BindingState)
    requires a != b
    ensures PreparedAck(k, a, session, handle, fence).Accepted? ==>
              SameBinding(k, PreparedAck(k, a, session, handle, fence).k, b)
    ensures ActiveAck(k, a, session, fence).Accepted? ==> SameBinding(k, ActiveAck(k, a, session, fence).k, b)
    ensures ClosedAck(k, a, session, fence, s).Accepted? ==> SameBinding(k, ClosedAck(k, a, session, fence, s).k, b)
  {
    hide SameBinding;
    if AckMatches(k, a, session, fence) {
      hide AckMatches;
      OneWritten(k, a, b, k.bindings[a].(handle := Some(handle), session := session));
      OneWritten(k, a, b, k.bindings[a].(session := session));
      OneWritten(k, a, b, k.bindings[a].(session := session, state := s));
    }
  }

  lemma OneWritten(k: Kernel, a: BindingId, b: BindingId, y: Binding)
    requires a != b
    ensures SameBinding(k, SetBinding(k, a, y), b)
  {
  }

  lemma FailedAckWritesOne(k: Kernel, a: BindingId, b: BindingId, session: nat, fence: nat)
    requires a != b && FailedAck(k, a, session, fence).Accepted?
    ensures SameBinding(k, FailedAck(k, a, session, fence).k, b)
  {
  }

  /** Every other command leaves the binding as it is; the ones that write it neither
      remove it nor, unless they open it, create it. */
  lemma BindingChanges(k: Kernel, c: Command, b: BindingId)
    requires Step(k, c).Accepted?
    ensures !WritesBinding(c, b) ==> SameBinding(k, Step(k, c).k, b)
    ensures WritesBinding(c, b) && !c.OpenBinding? ==> b in k.bindings
  {
    hide Install, Adopt, Reserve, Promote, Open, ActivateLeaseStep, Fail, ReleaseLeaseStep, Complete, Revoke,
         Expire, Renew;
    hide Bind, ActivateBindingStep, FailBindingStep, PreparedAck, ActiveAck, ClosedAck, FailedAck, AgentSession,
         Observe;
    hide SetNode, Unquarantine, Rebind, AdvanceFence, SameBinding;
    SameBindings(k, Step(k, c).k, b);
    if IsAck(c) {
      AckChanges(k, c, b);
    } else if IsDrive(c) {
      DriveChanges(k, c, b);
    }
  }

  lemma AckChanges(k: Kernel, c: Command, b: BindingId)
    requires IsAck(c) && Step(k, c).Accepted?
    ensures c.binding != b ==> SameBinding(k, Step(k, c).k, b)
    ensures c.binding in k.bindings
  {
    hide Install, Adopt, Reserve, Promote, Open, ActivateLeaseStep, Fail, ReleaseLeaseStep, Complete, Revoke,
         Expire, Renew;
    hide Bind, ActivateBindingStep, FailBindingStep, PreparedAck, ActiveAck, ClosedAck, FailedAck, AgentSession,
         Observe;
    hide SetNode, Unquarantine, Rebind, AdvanceFence, SameBinding;
    match c
    case RecordPrepared(a, session, handle, fence) =>
      AcksNeedBinding(k, a, session, handle, fence, BFenced);
      if a != b { AcksWriteOne(k, a, b, session, handle, fence, BFenced); }
    case RecordActive(a, session, fence) =>
      AcksNeedBinding(k, a, session, 0, fence, BFenced);
      if a != b { AcksWriteOne(k, a, b, session, 0, fence, BFenced); }
    case RecordReleased(a, session, fence) =>
      AcksNeedBinding(k, a, session, 0, fence, BReleased);
      if a != b { AcksWriteOne(k, a, b, session, 0, fence, BReleased); }
    case RecordFenced(a, session, fence) =>
      AcksNeedBinding(k, a, session, 0, fence, BFenced);
      if a != b { AcksWriteOne(k, a, b, session, 0, fence, BFenced); }
    case RecordFailed(a, session, fence) =>
      AcksNeedBinding(k, a, session, 0, fence, BFenced);
      if a != b { FailedAckWritesOne(k, a, b, session, fence); }
  }

  lemma DriveChanges(k: Kernel, c: Command, b: BindingId)
    requires IsDrive(c) && Step(k, c).Accepted?
    ensures c.binding != b ==> SameBinding(k, Step(k, c).k, b)
    ensures !c.OpenBinding? ==> c.binding in k.bindings
  {
    hide Install, Adopt, Reserve, Promote, Open, ActivateLeaseStep, Fail, ReleaseLeaseStep, Complete, Revoke,
         Expire, Renew;
    hide Bind, ActivateBindingStep, FailBindingStep, PreparedAck, ActiveAck, ClosedAck, FailedAck, AgentSession,
         Observe;
    hide SetNode, Unquarantine, Rebind, AdvanceFence, SameBinding;
    WritesOne(k, c, b, if c.RebindSession? then c.session else 0);
    AcksNeedBinding(k, c.binding, if c.RebindSession? then c.session else 0, 0, 0, BFenced);
  }

  lemma SameBindings(k: Kernel, k': Kernel, b: BindingId)
    ensures k'.bindings == k.bindings ==> SameBinding(k, k', b)
  {
  }

  lemma AcksNeedBinding(k: Kernel, a: BindingId, session: nat, handle: nat, fence: nat, s: BindingState)
    ensures PreparedAck(k, a, session, handle, fence).Accepted? || ActiveAck(k, a, session, fence).Accepted?
            || ClosedAck(k, a, session, fence, s).Accepted? || FailedAck(k, a, session, fence).Accepted?
            || ActivateBindingStep(k, a).Accepted? || FailBindingStep(k, a).Accepted?
            || Rebind(k, a, session).Accepted? ==>
              a in k.bindings
  {
  }

  /** A lease that has stopped occupying never occupies again. */
  lemma OccupancyNeverReturns(k: Kernel, e: Event, l: LeaseId)
    requires Inv(k) && l in k.leases && l !in Occ(k.leases, k.bindings)
    ensures l in After(k, e).leases && l !in Occ(After(k, e).leases, After(k, e).bindings)
  {
    hide Inv, Step;
    var k' := After(k, e);
    AfterStable(k, e);
    if l in OpenLeases(k'.bindings) {
      var b :| b in k'.bindings && !Closed(k'.bindings[b].state) && k'.bindings[b].lease == l;
      assert b in k.bindings ==> Later(k.bindings[b], k'.bindings[b]);
      assert b !in k.bindings;
      NewBindingsOnPreparing(k, e.c, b);
    }
    assert LeaseLater(k.leases[l], k'.leases[l]);
  }

  /** From acceptance until a lease stops occupying, no run of any length changes the
      machine behind any of its claims. */
  lemma {:induction false} PinnedWhileOccupying(k: Kernel, events: seq<Event>, l: LeaseId, i: nat)
    requires Inv(k) && l in k.leases && i < |k.leases[l].claims|
    requires l in Occ(Run(k, events).leases, Run(k, events).bindings)
    ensures l in Occ(k.leases, k.bindings)
    ensures l in Run(k, events).leases && Run(k, events).leases[l].claims == k.leases[l].claims
    ensures MachineOf(Run(k, events).graph, k.leases[l].claims[i].node) ==
            MachineOf(k.graph, k.leases[l].claims[i].node)
  {
    hide Inv, MachineOf;
    if events != [] {
      var prefix, e := events[..|events| - 1], events[|events| - 1];
      RunKeeps(k, prefix);
      RunStable(k, prefix);
      EventPins(Run(k, prefix), e, l);
      hide Stable, After;
      PinnedWhileOccupying(k, prefix, l, i);
    }
  }

  lemma EventPins(k: Kernel, e: Event, l: LeaseId)
    requires Inv(k) && l in k.leases && l in Occ(After(k, e).leases, After(k, e).bindings)
    ensures l in Occ(k.leases, k.bindings)
    ensures l in After(k, e).leases && After(k, e).leases[l].claims == k.leases[l].claims
    ensures forall i :: 0 <= i < |k.leases[l].claims| ==>
              MachineOf(After(k, e).graph, k.leases[l].claims[i].node) == MachineOf(k.graph, k.leases[l].claims[i].node)
  {
    hide Inv, MachineOf, Step;
    AfterStable(k, e);
    if l !in Occ(k.leases, k.bindings) {
      OccupancyNeverReturns(k, e, l);
    }
    assert LeaseLater(k.leases[l], After(k, e).leases[l]);
    hide Stable;
    if e.Cmd? && Step(k, e.c).Accepted? {
      forall i | 0 <= i < |k.leases[l].claims|
        ensures MachineOf(After(k, e).graph, k.leases[l].claims[i].node) ==
                MachineOf(k.graph, k.leases[l].claims[i].node)
      {
        StepPins(k, e.c, l, i);
      }
    }
  }

  lemma WritesKeepOpen(k: Kernel, c: Command)
    requires Step(k, c).Accepted? && (IsAck(c) || IsDrive(c))
    requires c.binding in k.bindings && !Closed(k.bindings[c.binding].state)
    requires !c.RecordReleased? && !c.RecordFenced?
    ensures c.binding in Step(k, c).k.bindings && !Closed(Step(k, c).k.bindings[c.binding].state)
  {
    hide MayBind, AckMatches, EffectsOf, SessionOf, Install, Adopt, Reserve, Promote, Open, ActivateLeaseStep, Fail;
    hide ReleaseLeaseStep, Complete, Revoke, Expire, Renew, AgentSession, Observe, SetNode, Unquarantine, AdvanceFence;
    hide EffectFor;
    if IsAck(c) {
      hide Bind, ActivateBindingStep, FailBindingStep, Rebind;
    } else {
      hide PreparedAck, ActiveAck, ClosedAck, FailedAck;
    }
  }

  lemma ClosingAck(k: Kernel, c: Command)
    requires Step(k, c).Accepted?
    ensures c.RecordReleased? || c.RecordFenced? ==> AckMatches(k, c.binding, c.session, c.fence)
  {
    hide Install, Adopt, Reserve, Promote, Open, ActivateLeaseStep, Fail, ReleaseLeaseStep, Complete, Revoke,
         Expire, Renew;
    hide Bind, ActivateBindingStep, FailBindingStep, PreparedAck, ActiveAck, FailedAck, AgentSession, Observe;
    hide SetNode, Unquarantine, Rebind, AdvanceFence, AckMatches;
  }

  /** Only a close acknowledgement closes a binding, and only one that carries the
      fence of the binding and the current session of the machine behind its node. */
  lemma CloseNeedsCurrentSession(k: Kernel, c: Command, b: BindingId)
    requires Step(k, c).Accepted? && b in k.bindings && !Closed(k.bindings[b].state)
    requires b in Step(k, c).k.bindings && Closed(Step(k, c).k.bindings[b].state)
    ensures (c.RecordReleased? || c.RecordFenced?) && c.binding == b && c.fence == k.bindings[b].fence
    ensures var m := MachineOf(k.graph, k.bindings[b].node);
            m.Some? && m.value in k.sessions && k.sessions[m.value] == c.session
  {
    BindingChanges(k, c, b);
    if WritesBinding(c, b) && !c.RecordReleased? && !c.RecordFenced? {
      WritesKeepOpen(k, c);
    }
    ClosingAck(k, c);
    hide Step;
  }

  /** The commands that emit nothing. */
  lemma QuietStep(k: Kernel, c: Command)
    requires Step(k, c).Accepted?
    requires !(c.FailLease? || c.RevokeLease? || c.ExpireLease? || c.CompleteLease? || c.ReleaseLease?
               || c.RecordFailed? || c.OpenBinding? || c.ActivateBinding? || c.SetAgentSession? || c.FenceBinding?
               || c.FailBinding? || c.ReleaseBinding?)
    ensures Step(k, c).effects == {}
  {
    hide Install, Adopt, Reserve, Promote, Open, ActivateLeaseStep, Renew, PreparedAck, ActiveAck, ClosedAck, Observe;
    hide SetNode, Unquarantine, Rebind, AdvanceFence;
  }
}
