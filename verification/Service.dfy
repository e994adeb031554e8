/** The controller's effect routing as the code runs it (crates/node/src/service.rs): effects
    routed, held or dispatched, answers absorbed. Every method is a sequence of turns of the
    stop-before-release gate, recorded in `turns`. */
module ServiceObject {
  import opened ResourceGraph
  import opened Occupancy
  import opened Kernel
  import opened Authority
  import opened StopGate
  import opened ClusterObject

  predicate Routable(k: Kernel, b: BindingId) {
    b in k.bindings && MachineOf(k.graph, k.bindings[b].node).Some?
  }

  lemma UnroutableStays(s: Service, b: BindingId, op: Op)
    requires !Routable(s.k, b)
    ensures Routed(s, b, op) == s
  {
    hide MachineOf, Step;
  }

  lemma ResessionedSelf(k: Kernel)
    ensures Resessioned(k, k)
  {
  }

  lemma ResessionedTwice(k: Kernel, k': Kernel, k'': Kernel)
    requires Resessioned(k, k') && Resessioned(k', k'')
    ensures Resessioned(k, k'')
  {
  }

  function Reconciles(queue: seq<Effect>): nat {
    if queue == [] then 0 else (if queue[0].Reconcile? then 1 else 0) + Reconciles(queue[1..])
  }

  lemma {:induction false} ReconcilesPush(queue: seq<Effect>, e: Effect)
    ensures Reconciles(queue + [e]) == Reconciles(queue) + if e.Reconcile? then 1 else 0
  {
    if queue != [] {
      assert (queue + [e])[1..] == queue[1..] + [e];
      ReconcilesPush(queue[1..], e);
    }
  }

  function BindingsFor(k: Kernel, lease: LeaseId): set<BindingId> {
    set b | b in k.bindings && k.bindings[b].lease == lease
  }

  predicate AllPrepared(k: Kernel, lease: LeaseId) {
    && lease in k.leases && k.leases[lease].state == Preparing && BindingsFor(k, lease) != {}
    && forall b :: b in BindingsFor(k, lease) ==> k.bindings[b].handle.Some?
  }

  /** The answer was a prepare acknowledgement, and with it every binding is prepared. */
  predicate Activates(k: Kernel, t: Tag, failed: bool) {
    t.BindingTag? && !failed && t.phase == Prepare && t.binding in k.bindings
      && AllPrepared(k, k.bindings[t.binding].lease)
  }

  /** The decisions a reconcile effect gives rise to. */
  predicate Readopts(e: Effect, t: Turn) {
    e.Reconcile? && t.Decide?
    && exists b :: b in e.bindings && (t.c == Command.RebindSession(b, e.session) || t.c == Command.ActivateBinding(b))
  }

  predicate Readopted(e: Effect, before: seq<Turn>, turns: seq<Turn>) {
    before <= turns && forall i :: |before| <= i < |turns| ==> Readopts(e, turns[i])
  }

  /** The last turn was a decision the kernel refuses. */
  ghost predicate LastRefused(k: Kernel, turns: seq<Turn>) {
    turns != [] && turns[|turns| - 1].Decide? && Step(k, turns[|turns| - 1].c).Rejected?
  }

  lemma ReadoptDrives(k: Kernel, b: BindingId, session: nat)
    ensures var o := Step(k, Command.RebindSession(b, session)); o.Accepted? ==> o.effects == {}
    ensures var o := Step(k, Command.ActivateBinding(b)); o.Accepted? ==> forall e :: e in o.effects ==> e.Drive?
  {
  }

  class NodeService {
    var cluster: Cluster
    const programs: set<LeaseId>
    var stopped: set<(LeaseId, NodeId, nat)>
    var inflight: set<Tag>
    var held: set<(BindingId, Op)>
    var pending: seq<Effect>
    ghost var emitted: set<Effect>
    ghost var turns: seq<Turn>

    ghost function Value(): Service
      reads this, cluster
    {
      Service(cluster.State(), programs, stopped, inflight, held, emitted)
    }

    ghost predicate Valid()
      reads this, cluster
    {
      && cluster.Valid() && Shift(Fresh(programs), turns) && Value() == Worked(Fresh(programs), turns)
      && Queued()
    }

    ghost predicate Queued()
      reads this
    {
      forall e :: e in pending ==> e in emitted
    }

    constructor (programs: set<LeaseId>)
      ensures Valid() && this.programs == programs && Value() == Fresh(programs) && fresh(cluster)
    {
      hide Inv, Step, Turned, MayTurn;
      cluster := new Cluster();
      this.programs := programs;
      stopped, inflight, held, pending := {}, {}, {}, [];
      emitted, turns := {}, [];
    }

    /** Whatever the methods did, a close on its way carries its stop proof. */
    ghost method Guarantee(t: Tag)
      requires Valid() && t in inflight
      ensures TagSound(Value(), t)
    {
      hide Inv, Turned, MayTurn;
      ShiftGated(programs, turns);
    }

    /** Queues effects that were emitted. */
    method Push(effects: set<Effect>)
      requires Queued() && effects <= emitted
      modifies this`pending
      ensures Queued() && forall e :: e in pending <==> e in old(pending) || e in effects
      ensures effects == {} ==> pending == old(pending)
      ensures (forall e :: e in effects ==> e.Drive?) ==> Reconciles(pending) == Reconciles(old(pending))
    {
      hide Reconciles;
      var todo := effects;
      while todo != {}
        invariant todo <= effects && (effects == {} ==> pending == old(pending))
        invariant forall e :: e in pending <==> e in old(pending) || e in effects - todo
        invariant (forall e :: e in effects ==> e.Drive?) ==> Reconciles(pending) == Reconciles(old(pending))
      {
        var e :| e in todo;
        ReconcilesPush(pending, e);
        pending := pending + [e];
        todo := todo - {e};
      }
    }

    /** Hands a command to the cluster; the effects of an accepted one become pending. */
    method Commit(c: Command) returns (ok: bool)
      requires cluster.Valid() && Queued()
      modifies this`pending, this`emitted, cluster
      ensures cluster.Valid() && Queued()
      ensures Value() == StopGate.Commit(old(Value()), c) && ok == Step(old(cluster.State()), c).Accepted?
      ensures ok ==> forall e :: e in pending <==> e in old(pending) || e in Step(old(cluster.State()), c).effects
      ensures !ok || Step(old(cluster.State()), c).effects == {} ==> pending == old(pending)
      ensures ok && (forall e :: e in Step(old(cluster.State()), c).effects ==> e.Drive?) ==>
                Reconciles(pending) == Reconciles(old(pending))
    {
      hide Inv, Step, Reconciles;
      var reply := cluster.Apply(c);
      ok := reply.Some?;
      if ok {
        emitted := emitted + reply.value;
        Push(reply.value);
      }
    }

    /** Any command the controller decides on. */
    method Decide(c: Command) returns (ok: bool)
      requires Valid() && Decidable(cluster.State(), c)
      modifies this`pending, this`emitted, this`turns, cluster
      ensures Valid() && turns == old(turns) + [Turn.Decide(c)] && Value() == StopGate.Commit(old(Value()), c)
      ensures ok == Step(old(cluster.State()), c).Accepted? && (!ok ==> pending == old(pending))
      ensures (ok ==> forall e :: e in Step(old(cluster.State()), c).effects ==> e.Drive?) ==>
                Reconciles(pending) == Reconciles(old(pending))
    {
      hide Inv, Step, Shift, Worked, Fresh, Reconciles;
      OneMoreTurn(Fresh(programs), turns, Turn.Decide(c));
      ok := Commit(c);
      turns := turns + [Turn.Decide(c)];
    }

    /** A command from outside: committed, and then everything pending is routed. */
    method Apply(c: Command) returns (ok: bool, refused: Option<Effect>)
      requires Valid() && Decidable(cluster.State(), c)
      modifies this`pending, this`emitted, this`inflight, this`held, this`turns, cluster
      ensures Valid() && old(turns) + [Turn.Decide(c)] <= turns && (ok <==> Step(old(cluster.State()), c).Accepted?)
      ensures !ok ==> Value() == old(Value()) && pending == old(pending)
      ensures ok && refused.None? ==> pending == []
    {
      hide Inv, Step, Shift, Worked, Fresh, Reconciles, Routable, Readopts;
      ok := Decide(c);
      refused := None;
      if ok {
        refused := Pump();
      }
    }

    method MemberStopProven(lease: LeaseId, machine: NodeId) returns (proven: bool)
      ensures proven <==> StopProven(Value(), lease, machine)
    {
      return machine in cluster.sessions && (lease, machine, cluster.sessions[machine]) in stopped;
    }

    /** Moves a binding onto the current session of its machine. */
    method RebindIfStale(b: BindingId)
      requires cluster.Valid() && b in cluster.bindings && Queued()
      modifies this`pending, this`emitted, cluster
      ensures cluster.Valid() && Queued() && Value() == Rebound(old(Value()), b) && pending == old(pending)
    {
      hide Inv, Step, Reconciles;
      var machine := MachineOf(cluster.graph, cluster.bindings[b].node);
      if machine.Some? && machine.value in cluster.sessions
         && cluster.sessions[machine.value] != cluster.bindings[b].session {
        RebindStep(cluster.State(), b);
        var ok := Commit(Command.RebindSession(b, cluster.sessions[machine.value]));
      }
    }

    /** Routes one effect: dispatched to its agent, or held while the member runs. Refused
        if the binding is unknown or its node has no machine. */
    method Route(b: BindingId, op: Op) returns (ok: bool)
      requires cluster.Valid() && Queued()
      modifies this`pending, this`emitted, this`inflight, this`held, cluster
      ensures cluster.Valid() && Queued() && Value() == Routed(old(Value()), b, op)
      ensures pending == old(pending) && (ok <==> Routable(old(cluster.State()), b))
      ensures !ok ==> Value() == old(Value())
    {
      hide Inv, Step, Dispatched;
      ok := b in cluster.bindings && MachineOf(cluster.graph, cluster.bindings[b].node).Some?;
      if ok {
        ReboundIs(Value(), b);
        hide Rebound;
        RebindIfStale(b);
        Dispatch(b, op);
      } else {
        UnroutableStays(Value(), b, op);
      }
    }

    method Dispatch(b: BindingId, op: Op)
      requires b in cluster.bindings
      modifies this`inflight, this`held
      ensures Value() == Dispatched(old(Value()), b, op)
    {
      hide MachineOf, LeaseMachines;
      var x := cluster.bindings[b];
      var machine := MachineOf(cluster.graph, x.node);
      if machine.None? {
        return;
      }
      var proven := MemberStopProven(x.lease, machine.value);
      var ended := x.lease in cluster.leases && !Live(cluster.leases[x.lease].state);
      if ended && x.lease in programs && machine.value in cluster.sessions && !proven {
        StopMembers(x.lease);
        held := held + {(b, op)};
      } else {
        inflight := inflight + {BindingTag(b, x.session, x.fence, op)};
      }
    }

    /** Asks every machine of the lease to stop its member, once per session. */
    method StopMembers(lease: LeaseId)
      modifies this`inflight
      ensures inflight == old(inflight) + StopRequests(old(Value()), lease)
    {
      var todo := LeaseMachines(cluster.State(), lease);
      ghost var done: set<NodeId> := {};
      while todo != {}
        invariant done + todo == LeaseMachines(cluster.State(), lease)
        invariant inflight == old(inflight) + set m | m in done && m in cluster.sessions
                    && (lease, m, cluster.sessions[m]) !in stopped :: StopTag(lease, m, cluster.sessions[m])
      {
        var m :| m in todo;
        if m in cluster.sessions && (lease, m, cluster.sessions[m]) !in stopped {
          inflight := inflight + {StopTag(lease, m, cluster.sessions[m])};
        }
        todo := todo - {m};
        done := done + {m};
      }
      assert done == LeaseMachines(cluster.State(), lease);
    }

    /** Routes the pending effects in order. The first refusal ends the pass and leaves the
        rest of the queue pending. */
    method Pump() returns (refused: Option<Effect>)
      requires Valid()
      modifies this`pending, this`emitted, this`inflight, this`held, this`turns, cluster
      ensures Valid() && old(turns) <= turns && (refused.None? ==> pending == [])
      ensures refused.Some? && refused.value.Drive? ==> !Routable(cluster.State(), refused.value.binding)
      ensures refused.Some? && refused.value.Reconcile? ==>
                turns != [] && Readopts(refused.value, turns[|turns| - 1]) && LastRefused(cluster.State(), turns)
    {
      hide Inv, Step, Shift, Worked, Fresh, Routed, Valid, Routable, Readopts, LastRefused;
      while pending != []
        invariant Valid() && old(turns) <= turns
        decreases Reconciles(pending), |pending|
      {
        var e := pending[0];
        var ok;
        if e.Drive? {
          ok := PumpDrive();
        } else {
          ok := PumpReconcile();
        }
        if !ok {
          return Some(e);
        }
      }
      return None;
    }

    method PumpDrive() returns (ok: bool)
      requires Valid() && pending != [] && pending[0].Drive?
      modifies this`pending, this`emitted, this`inflight, this`held, this`turns, cluster
      ensures Valid() && pending == old(pending)[1..] && turns == old(turns) + [RoutePending(old(pending)[0])]
      ensures Value() == Routed(old(Value()), old(pending)[0].binding, old(pending)[0].op)
      ensures !ok ==> !Routable(cluster.State(), old(pending)[0].binding)
    {
      hide Inv, Step, Shift, Worked, Fresh, Routed, Routable;
      var e := pending[0];
      OneMoreTurn(Fresh(programs), turns, RoutePending(e));
      pending := pending[1..];
      ok := Route(e.binding, e.op);
      turns := turns + [RoutePending(e)];
    }

    /** Moves the machine's bindings of active leases onto its new session and activates them
        there again, until a command is refused. */
    method PumpReconcile() returns (ok: bool)
      requires Valid() && pending != [] && pending[0].Reconcile?
      modifies this`pending, this`emitted, this`turns, cluster
      ensures Valid() && Reconciles(pending) < Reconciles(old(pending)) && Readopted(old(pending)[0], old(turns), turns)
      ensures !ok ==> |old(turns)| < |turns| && LastRefused(cluster.State(), turns)
    {
      hide Inv, Step, Shift, Worked, Fresh;
      var e := pending[0];
      pending := pending[1..];
      hide Reconciles, Readopts, LastRefused;
      var todo := e.bindings;
      while todo != {}
        invariant Valid() && todo <= e.bindings && Reconciles(pending) == Reconciles(old(pending)[1..])
        invariant Readopted(e, old(turns), turns)
      {
        var b :| b in todo;
        todo := todo - {b};
        ok := Readopt(e, b);
        if !ok {
          return;
        }
      }
      return true;
    }

    method Readopt(e: Effect, b: BindingId) returns (ok: bool)
      requires Valid() && e.Reconcile? && b in e.bindings
      modifies this`pending, this`emitted, this`turns, cluster
      ensures Valid() && Reconciles(pending) == Reconciles(old(pending)) && Readopted(e, old(turns), turns)
      ensures !ok ==> |old(turns)| < |turns| && LastRefused(cluster.State(), turns)
    {
      hide Inv, Step, Shift, Worked, Fresh, Reconciles;
      ok := true;
      if b in cluster.bindings && cluster.bindings[b].lease in cluster.leases
         && cluster.leases[cluster.bindings[b].lease].state == Active {
        ReadoptDrives(cluster.State(), b, e.session);
        ok := Decide(Command.RebindSession(b, e.session));
        if ok {
          ReadoptDrives(cluster.State(), b, e.session);
          ok := Decide(Command.ActivateBinding(b));
        }
      }
    }

    /** A stop acknowledgement counts only in the machine's current session, and then drives
        what was held for it. */
    method AbsorbStop(t: Tag) returns (aborted: bool)
      requires Valid() && t in inflight && t.StopTag?
      modifies this`pending, this`emitted, this`inflight, this`held, this`stopped, this`turns, cluster
      ensures Valid()
      ensures var current := t.machine in old(cluster.sessions) && old(cluster.sessions)[t.machine] == t.session;
              var s := StopAnswered(old(Value()), t);
              && stopped == (if current then old(stopped) + {(t.lease, t.machine, t.session)} else old(stopped))
              && (aborted <==> current && exists h :: h in s.held && Jams(s, h))
              && (!aborted ==>
                    && held == (if current then set h | h in s.held && Kept(s, h) else old(held))
                    && inflight == old(inflight) - {t}
                       + if current then set h | h in s.held && Ready(s, h) :: ReadyRequest(s, h) else {})
    {
      hide Inv, Step, Shift, Worked, Fresh, Ready, Kept, Jams, ReadyRequest, Resessioned;
      RecordStop(t);
      aborted := false;
      if t.machine in cluster.sessions && cluster.sessions[t.machine] == t.session {
        aborted := DriveHeldEffects();
      }
    }

    /** A member found exited on a recovered machine. If its lease has ended, the other
        members are asked to stop and what was held is driven. */
    method AbsorbExit(lease: LeaseId, machine: NodeId) returns (aborted: bool)
      requires Valid()
      modifies this`pending, this`emitted, this`inflight, this`held, this`stopped, this`turns, cluster
      ensures Valid() && stopped == ExitRecovered(old(Value()), lease, machine).stopped
      ensures var ended := Terminal(old(cluster.State()), lease);
              var s := Asked(ExitRecovered(old(Value()), lease, machine), lease);
              && (aborted <==> ended && exists h :: h in s.held && Jams(s, h))
              && (!aborted ==>
                    && held == (if ended then set h | h in s.held && Kept(s, h) else old(held))
                    && inflight == s.inflight
                       + if ended then set h | h in s.held && Ready(s, h) :: ReadyRequest(s, h) else {})
    {
      hide Inv, Step, Shift, Worked, Fresh, Ready, Kept, Jams, ReadyRequest, Resessioned, StopRequests;
      RecordExit(lease, machine);
      aborted := false;
      if lease in cluster.leases && !Live(cluster.leases[lease].state) {
        AskMembers(lease);
        aborted := DriveHeldEffects();
      }
    }

    method RecordExit(lease: LeaseId, machine: NodeId)
      requires Valid()
      modifies this`stopped, this`turns
      ensures Valid() && Value() == ExitRecovered(old(Value()), lease, machine)
    {
      hide Inv, Step, Shift, Worked, Fresh;
      OneMoreTurn(Fresh(programs), turns, RecoveredExit(lease, machine));
      if machine in cluster.sessions {
        stopped := stopped + {(lease, machine, cluster.sessions[machine])};
      }
      turns := turns + [RecoveredExit(lease, machine)];
    }

    method AskMembers(lease: LeaseId)
      requires Valid()
      modifies this`inflight, this`turns
      ensures Valid() && Value() == Asked(old(Value()), lease)
    {
      hide Inv, Step, Shift, Worked, Fresh, StopRequests;
      OneMoreTurn(Fresh(programs), turns, AskStop(lease));
      if lease in programs && lease in cluster.leases && !Live(cluster.leases[lease].state) {
        StopMembers(lease);
      }
      turns := turns + [AskStop(lease)];
    }

    method RecordStop(t: Tag)
      requires Valid() && t in inflight && t.StopTag?
      modifies this`inflight, this`stopped, this`turns
      ensures Valid() && Value() == StopAnswered(old(Value()), t) && turns == old(turns) + [StopAnswer(t)]
    {
      hide Inv, Step, Shift, Worked, Fresh;
      OneMoreTurn(Fresh(programs), turns, StopAnswer(t));
      inflight := inflight - {t};
      if t.machine in cluster.sessions && cluster.sessions[t.machine] == t.session {
        stopped := stopped + {(t.lease, t.machine, t.session)};
      }
      turns := turns + [StopAnswer(t)];
    }

    /** An agent's answer to a binding request becomes the matching acknowledgement; the last
        prepare acknowledgement of a lease goes on to activate it. */
    method AbsorbBinding(t: Tag, failed: bool, handle: nat)
      requires Valid() && t in inflight && t.BindingTag?
      modifies this`inflight, this`pending, this`emitted, this`turns, cluster
      ensures Valid() && old(turns) + [BindingAnswer(t, failed, handle)] <= turns && inflight == old(inflight) - {t}
      ensures var k := StopGate.Commit(old(Value()), InKind(t, failed, handle)).k;
              if Activates(k, t, failed)
              then |old(turns)| + 1 < |turns|
                   && turns[|old(turns)| + 1] == Turn.Decide(Command.ActivateLease(k.bindings[t.binding].lease))
              else turns == old(turns) + [BindingAnswer(t, failed, handle)] && cluster.State() == k
    {
      hide Inv, Step, Shift, Worked, Fresh, AllPrepared, StopGate.Commit;
      RecordAnswer(t, failed, handle);
      if !failed && t.phase == Prepare && t.binding in cluster.bindings {
        MaybeActivate(cluster.bindings[t.binding].lease);
      }
    }

    method RecordAnswer(t: Tag, failed: bool, handle: nat)
      requires Valid() && t in inflight && t.BindingTag?
      modifies this`inflight, this`pending, this`emitted, this`turns, cluster
      ensures Valid() && turns == old(turns) + [BindingAnswer(t, failed, handle)]
      ensures cluster.State() == StopGate.Commit(old(Value()), InKind(t, failed, handle)).k
              && inflight == old(inflight) - {t}
    {
      hide Inv, Step, Shift, Worked, Fresh;
      OneMoreTurn(Fresh(programs), turns, BindingAnswer(t, failed, handle));
      inflight := inflight - {t};
      var ok := Commit(InKind(t, failed, handle));
      turns := turns + [BindingAnswer(t, failed, handle)];
    }

    /** Once every binding of a preparing lease is prepared, the lease and then each of its
        bindings is activated; before that nothing is decided. */
    method MaybeActivate(lease: LeaseId)
      requires Valid()
      modifies this`pending, this`emitted, this`turns, cluster
      ensures Valid() && old(turns) <= turns
      ensures !AllPrepared(old(cluster.State()), lease) ==> turns == old(turns) && Value() == old(Value())
      ensures AllPrepared(old(cluster.State()), lease) ==>
                && |old(turns)| < |turns| && turns[|old(turns)|] == Turn.Decide(Command.ActivateLease(lease))
                && forall b :: b in BindingsFor(old(cluster.State()), lease) ==>
                     Turn.Decide(Command.ActivateBinding(b)) in turns[|old(turns)| + 1..]
    {
      hide Inv, Step, Shift, Worked, Fresh, Reconciles;
      if !AllPrepared(cluster.State(), lease) {
        return;
      }
      var bindings := BindingsFor(cluster.State(), lease);
      ghost var from := |turns| + 1;
      var ok := Decide(Command.ActivateLease(lease));
      var todo := bindings;
      while todo != {}
        invariant todo <= bindings && Valid() && old(turns) <= turns && from <= |turns|
        invariant turns[from - 1] == Turn.Decide(Command.ActivateLease(lease))
        invariant forall b :: b in bindings - todo ==> Turn.Decide(Command.ActivateBinding(b)) in turns[from..]
      {
        var b :| b in todo;
        todo := todo - {b};
        ghost var before := turns;
        ok := Decide(Command.ActivateBinding(b));
        assert turns[from..] == before[from..] + [Turn.Decide(Command.ActivateBinding(b))];
      }
    }

    /** Re-routes every held close whose member is proven stopped and keeps what still waits:
        the proven ones are on their way in the current session of their machine. It aborts
        exactly when a prepare or an activate is held whose member is proven stopped. */
    method DriveHeldEffects() returns (aborted: bool)
      requires Valid()
      modifies this`pending, this`emitted, this`inflight, this`held, this`turns, cluster
      ensures Valid() && old(turns) <= turns && Resessioned(old(cluster.State()), cluster.State())
      ensures aborted <==> exists h :: h in old(held) && Jams(old(Value()), h)
      ensures !aborted ==>
                && held == (set h | h in old(held) && Kept(old(Value()), h))
                && inflight == old(inflight) + set h | h in old(held) && Ready(old(Value()), h) ::
                    ReadyRequest(old(Value()), h)
    {
      hide Inv, Step, Shift, Worked, Fresh, Routed, Ready, Kept, Jams, ReadyRequest, Resessioned;
      ghost var s := Value();
      var todo := held;
      ResessionedSelf(s.k);
      while todo != {}
        invariant todo <= s.held && Valid() && old(turns) <= turns && Resessioned(s.k, cluster.State())
        invariant held == todo + set h | h in s.held - todo && Kept(s, h)
        invariant inflight == s.inflight + set h | h in s.held - todo && Ready(s, h) :: ReadyRequest(s, h)
        invariant forall h :: h in s.held - todo ==> !Jams(s, h)
      {
        var h :| h in todo;
        ResessionedSame(s, Value(), h);
        ghost var k := cluster.State();
        aborted := DriveHeld(h);
        ResessionedTwice(s.k, k, cluster.State());
        if aborted {
          return;
        }
        todo := todo - {h};
      }
      return false;
    }

    method DriveHeld(h: (BindingId, Op)) returns (aborted: bool)
      requires Valid() && h in held
      modifies this`pending, this`emitted, this`inflight, this`held, this`turns, cluster
      ensures Valid() && old(turns) <= turns && Resessioned(old(cluster.State()), cluster.State())
      ensures aborted <==> Jams(old(Value()), h)
      ensures !aborted ==>
                && held == (if Kept(old(Value()), h) then old(held) else old(held) - {h})
                && inflight == if Ready(old(Value()), h) then old(inflight) + {ReadyRequest(old(Value()), h)}
                    else old(inflight)
    {
      hide Inv, Step, Shift, Worked, Fresh, Routed, Resessioned;
      ResessionedSelf(cluster.State());
      aborted := false;
      var proven, known := false, false;
      if h.0 in cluster.bindings {
        var x := cluster.bindings[h.0];
        var machine := MachineOf(cluster.graph, x.node);
        if machine.Some? {
          known := true;
          proven := MemberStopProven(x.lease, machine.value);
        }
      }
      if proven && !Closes(h.1) {
        return true;
      } else if proven {
        OneMoreTurn(Fresh(programs), turns, RouteHeld(h.0, h.1));
        held := held - {h};
        ReadyRoutes(Value(), h);
        var ok := Route(h.0, h.1);
        turns := turns + [RouteHeld(h.0, h.1)];
      } else if !known {
        OneMoreTurn(Fresh(programs), turns, Dropped({}, {h}));
        held := held - {h};
        turns := turns + [Dropped({}, {h})];
      }
    }

    /** Controller restart: observations of earlier sessions are forgotten. */
    method ForgetObservations()
      requires Valid()
      modifies this`stopped, this`inflight, this`held, this`pending, this`emitted, this`turns
      ensures Valid() && stopped == {} && inflight == {} && held == {} && pending == []
    {
      hide Inv, Step, Shift, Worked, Fresh;
      OneMoreTurn(Fresh(programs), turns, Turn.Restart);
      stopped, inflight, held, pending, emitted := {}, {}, {}, [], {};
      turns := turns + [Turn.Restart];
    }
  }
}
