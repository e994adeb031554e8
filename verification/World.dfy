/** The simulated world as the code runs it (crates/sim/src/world.rs): one cluster, its
    agents and endpoints, and a queue of effects in flight. Every method is a sequence of
    moves of the fencing protocol, recorded in `moves`. */
module Simulator {
  import opened ResourceGraph
  import opened Occupancy
  import opened Quantities
  import opened Kernel
  import opened Authority
  import opened Runs
  import opened Pinning
  import opened Endpoints
  import opened Fencing
  import opened ClusterObject

  lemma PlayOne(w: WorldState, moves: seq<Move>, m: Move)
    requires Schedule(w, moves) && Enabled(Play(w, moves), m)
    ensures Schedule(w, moves + [m]) && Play(w, moves + [m]) == Next(Play(w, moves), m)
  {
    hide Next, Enabled;
    assert (moves + [m])[..|moves|] == moves;
  }

  /** `places` are exactly the places of contracts at or below the machine. */
  ghost predicate AreEnforced(g: Graph, machine: NodeId, places: set<Place>) {
    forall p, n :: (p, n) in places <==>
      InScope(g, n, machine) && n in g.claimBindings && exists d ::
          d in g.claimBindings[n] && g.claimBindings[n][d].provider == p
  }

  class World {
    var cluster: Cluster
    var agents: map<NodeId, Agent>
    var endpoints: map<Place, EndpointState>
    var pending: seq<Effect>
    var trace: seq<Event>
    var nextSession: nat
    var nextHandle: nat
    ghost var sent: set<Effect>
    ghost var moves: seq<Move>

    ghost function Value(): WorldState
      reads this, cluster
    {
      WorldState(cluster.State(), agents, endpoints, sent, trace, nextHandle)
    }

    ghost predicate Valid()
      reads this, cluster
    {
      && cluster.Valid()
      && Schedule(StartWorld(), moves) && Value() == Play(StartWorld(), moves)
      && Sent()
    }

    ghost predicate Sent()
      reads this
    {
      forall e :: e in pending ==> e in sent
    }

    constructor ()
      ensures Valid() && Value() == StartWorld() && moves == [] && fresh(cluster)
    {
      hide Inv, Step, Next, Enabled;
      cluster := new Cluster();
      agents, endpoints, pending, trace := map[], map[], [], [];
      nextSession, nextHandle := 1, 1;
      sent, moves := {}, [];
    }

    /** Whatever the methods did, the world is one the protocol can reach, so no endpoint
        enforces a lease whose capacity was freed. */
    ghost method Guarantee(place: Place, b: BindingId)
      requires Valid() && Enforces(Value(), place, b)
      ensures b in cluster.bindings && !Closed(cluster.bindings[b].state)
      ensures cluster.bindings[b].lease in Roots(cluster.leases, Occ(cluster.leases, cluster.bindings))
    {
      hide Inv;
      EnforcedIsCharged(moves, place, b);
    }

    /** Hands a command to the cluster and, if it is accepted, to the trace. */
    method Commit(c: Command) returns (reply: ClusterObject.Reply)
      requires cluster.Valid()
      modifies this`trace, this`sent, cluster
      ensures cluster.Valid() && Value() == Fencing.Commit(old(Value()), c)
      ensures reply.Some? <==> Step(old(cluster.State()), c).Accepted?
      ensures reply.Some? ==> reply.value <= sent
      ensures old(sent) <= sent
    {
      hide Inv, Step;
      reply := cluster.Apply(c);
      if reply.Some? {
        trace := trace + [Cmd(c)];
        sent := sent + reply.value;
      }
    }

    method Push(effects: set<Effect>)
      modifies this`pending
      ensures forall e :: e in pending <==> e in old(pending) || e in effects
      ensures old(pending) <= pending
    {
      var todo := effects;
      while todo != {}
        invariant todo <= effects
        invariant forall e :: e in pending <==> e in old(pending) || e in effects - todo
        invariant old(pending) <= pending
      {
        var e :| e in todo;
        pending := pending + [e];
        todo := todo - {e};
      }
    }

    method Apply(c: Command) returns (reply: ClusterObject.Reply)
      requires Valid() && !IsAck(c)
      modifies this`trace, this`sent, this`pending, this`moves, cluster
      ensures Valid() && moves == old(moves) + [Env(Cmd(c))]
      ensures Value() == Fencing.Commit(old(Value()), c) && old(pending) <= pending
      ensures reply.Some? ==> forall e :: e in reply.value ==> e in pending
    {
      hide Inv, Step, Play, Schedule;
      PlayOne(StartWorld(), moves, Env(Cmd(c)));
      reply := Commit(c);
      if reply.Some? {
        Push(reply.value);
      }
      moves := moves + [Env(Cmd(c))];
    }

    method SetNow(now: nat)
      requires Valid()
      modifies this`trace, this`moves, cluster
      ensures Valid() && moves == old(moves) + [Env(Event.SetNow(now))]
    {
      hide Inv, Step, Play, Schedule;
      PlayOne(StartWorld(), moves, Env(Event.SetNow(now)));
      ghost var k := cluster.State();
      cluster.SetNow(now);
      SameDecisionsKeep(k, cluster.State());
      trace := trace + [Event.SetNow(now)];
      moves := moves + [Env(Event.SetNow(now))];
    }

    method DropOne() returns (dropped: bool)
      requires Valid()
      modifies this`pending
      ensures Valid() && Value() == old(Value())
      ensures dropped <==> old(pending) != []
      ensures dropped ==> pending == old(pending)[1..]
    {
      if pending == [] {
        return false;
      }
      pending := pending[1..];
      return true;
    }

    /** The agent's part of a delivery: check the session and the epoch, drive the endpoint,
        and answer with the acknowledgement to commit. */
    method ApplyEffect(e: Effect) returns (ack: Option<Command>)
      requires e.Drive?
      modifies this`agents, this`endpoints, this`nextHandle
      ensures Value() == Acted(old(Value()), e)
      ensures var w := old(Value());
              ack == if Taken(w, e)
                     then AckFor(e.op, AnswerTo(w, e).ok, e.binding, e.session, w.nextHandle, e.fence) else None
    {
      var machine := MachineOf(cluster.graph, e.node);
      if machine.None? || machine.value !in agents {
        return None;
      }
      var m := machine.value;
      if e.epoch < agents[m].epoch || e.session != agents[m].session {
        return None;
      }
      if e.epoch > agents[m].epoch {
        agents := agents[m := agents[m].(epoch := e.epoch)];
      }
      var place := (e.provider, e.node);
      var endpoint := if place in endpoints then endpoints[place] else NewEndpoint(agents[m].session);
      var answer := Operate(endpoint, e.op, e.binding, e.fence, e.session);
      endpoints := endpoints[place := answer.endpoint];
      var handle := nextHandle;
      if e.op == Prepare && answer.ok {
        nextHandle := nextHandle + 1;
      }
      return AckFor(e.op, answer.ok, e.binding, e.session, handle, e.fence);
    }

    /** Delivers a driven effect, which may be late, repeated or out of order. */
    method Drive(e: Effect)
      requires Valid() && e.Drive? && e in sent
      modifies this`agents, this`endpoints, this`nextHandle, this`trace, this`sent, this`pending, this`moves, cluster
      ensures Valid() && moves == old(moves) + [Deliver(e)]
      ensures Value() == Delivered(old(Value()), e) && old(pending) <= pending && old(sent) <= sent
    {
      hide Inv, Step, Play, Schedule;
      PlayOne(StartWorld(), moves, Deliver(e));
      hide Operate, MachineOf;
      var ack := ApplyEffect(e);
      if ack.Some? {
        var reply := Commit(ack.value);
        if reply.Some? {
          Push(reply.value);
        }
      }
      moves := moves + [Deliver(e)];
    }

    method Greet(machine: NodeId, session: nat, places: set<Place>)
      requires Valid()
      modifies this`agents, this`endpoints, this`moves
      ensures Valid() && Value() == Greeting(old(Value()), machine, session, places)
    {
      hide Inv, Step, Play, Schedule;
      PlayOne(StartWorld(), moves, Move.Greet(machine, session, places));
      agents := agents[machine := Agent(session, cluster.epoch)];
      GreetPlaces(session, places);
      moves := moves + [Move.Greet(machine, session, places)];
    }

    method GreetPlaces(session: nat, places: set<Place>)
      modifies this`endpoints
      ensures endpoints == Greeted(old(endpoints), session, places)
    {
      var todo := places;
      while todo != {}
        invariant todo <= places && endpoints == Greeted(old(endpoints), session, places - todo)
      {
        var p :| p in todo;
        endpoints := endpoints[p := if p in endpoints then Handshake(endpoints[p], session) else NewEndpoint(session)];
        todo := todo - {p};
      }
      assert places - todo == places;
    }

    /** The places of every contract at or below a machine. */
    method EnforcedUnder(machine: NodeId) returns (places: set<Place>)
      requires cluster.Valid()
      ensures AreEnforced(cluster.graph, machine, places)
    {
      WellFormedListsChildren(cluster.graph);
      var below := DescendantWalk(cluster.graph, machine);
      var contracts: map<NodeId, map<Dimension, ClaimBinding>> := cluster.graph.claimBindings;
      places := set n: NodeId, d: Dimension | n in contracts && (n == machine || n in below) && d in contracts[n] ::
        (contracts[n][d].provider, n);
    }

    method RegisterAgent(machine: NodeId) returns (session: nat)
      requires Valid()
      modifies this, cluster
      ensures Valid() && session == old(nextSession) < nextSession && cluster == old(cluster)
      ensures exists places :: AreEnforced(old(cluster.graph), machine, places)
                && Value() == Fencing.Commit(Greeting(old(Value()), machine, session, places),
                  Command.SetAgentSession(machine, session))
    {
      hide Inv, Step, Play, Schedule, Fencing.Commit, Greeting, StartWorld;
      session := nextSession;
      nextSession := nextSession + 1;
      var places := EnforcedUnder(machine);
      Greet(machine, session, places);
      var reply := Apply(Command.SetAgentSession(machine, session));
    }

    /** The agent of `machine` comes back with a new session; its endpoints persist. */
    method RestartAgent(machine: NodeId) returns (session: nat)
      requires Valid()
      modifies this, cluster
      ensures Valid() && session == old(nextSession) < nextSession && cluster == old(cluster)
      ensures var places := set p | p in old(endpoints) && MachineOf(old(cluster.graph), p.1) == Some(machine);
              Value() == Fencing.Commit(Greeting(old(Value()), machine, session, places),
                Command.SetAgentSession(machine, session))
    {
      hide Inv, Step, Play, Schedule, Fencing.Commit, Greeting, StartWorld;
      session := nextSession;
      nextSession := nextSession + 1;
      var places := set p | p in endpoints && MachineOf(cluster.graph, p.1) == Some(machine);
      Greet(machine, session, places);
      var reply := Apply(Command.SetAgentSession(machine, session));
    }

    /** The agent of `machine` becomes unreachable. */
    method ForgetAgent(machine: NodeId)
      requires Valid()
      modifies this`agents, this`moves
      ensures Valid() && agents == old(agents) - {machine}
    {
      hide Inv, Step, Play, Schedule;
      PlayOne(StartWorld(), moves, Forget(machine));
      agents := agents - {machine};
      moves := moves + [Forget(machine)];
    }

    /* ---------- reconciliation ---------- */

    method SendOne(e: Effect)
      modifies this`pending, this`sent
      ensures pending == old(pending) + [e] && sent == old(sent) + {e}
    {
      pending := pending + [e];
      sent := sent + {e};
    }

    /** The endpoint still enforces exactly this generation, for a live lease. */
    method Adoptable(b: BindingId) returns (same: bool)
      ensures same <==> Proven(Value(), b)
    {
      if b !in cluster.bindings {
        return false;
      }
      var x := cluster.bindings[b];
      var place := (x.provider, x.node);
      return LeaseLive(cluster.State(), b) && place in endpoints
        && endpoints[place].open && endpoints[place].binding == Some(b) && endpoints[place].acceptedFence == x.fence;
    }

    /** A proven binding moves to the new session and is driven again. */
    method Adopt(b: BindingId, session: nat, epoch: nat) returns (ok: bool)
      requires cluster.Valid() && b in cluster.bindings && Sent()
      modifies this`trace, this`sent, this`pending, cluster
      ensures cluster.Valid() && Sent()
      ensures Value() == Adopting(old(Value()), b, session, epoch)
    {
      hide Inv, Step, Fencing.Commit;
      var x := cluster.bindings[b];
      var reply := Commit(Command.RebindSession(b, session));
      if reply.None? {
        return false;
      }
      var op := Redrive(x.state);
      if op.Some? {
        SendOne(Effect.Drive(op.value, b, x.node, x.provider, x.fence, session, epoch));
      }
      return true;
    }

    /** A binding that cannot be proven: its lease fails, once per pass, or it is fenced. */
    method FailOrFence(b: BindingId, session: nat, epoch: nat, failed: set<LeaseId>)
        returns (ok: bool, failed': set<LeaseId>)
      requires cluster.Valid() && b in cluster.bindings && !Proven(Value(), b)
      requires Sent()
      modifies this`trace, this`sent, this`pending, cluster
      ensures cluster.Valid() && Sent()
      ensures Value() == Reconciled(old(Value()), b, session, epoch, old(cluster.bindings)[b].lease !in failed)
      ensures failed' == failed || failed' == failed + {old(cluster.bindings)[b].lease}
    {
      hide Inv, Step, Proven;
      ok, failed' := true, failed;
      var x := cluster.bindings[b];
      if x.state.BPreparing? || x.state.BActive? {
        if LeaseLive(cluster.State(), b) && x.lease !in failed {
          failed' := failed + {x.lease};
          var reply := Commit(Command.FailLease(x.lease));
          if reply.None? {
            return false, failed';
          }
          Push(reply.value);
        } else {
          SendOne(Effect.Drive(Op.Fence, b, x.node, x.provider, x.fence, session, epoch));
        }
      }
    }

    /** One binding of the pass is one protocol move; `refail` is whether its lease has not
        failed in this pass yet. */
    method ReconcileOne(b: BindingId, session: nat, epoch: nat, failed: set<LeaseId>)
        returns (ok: bool, failed': set<LeaseId>)
      requires Valid()
      modifies this`trace, this`sent, this`pending, this`moves, cluster
      ensures Valid() && failed <= failed'
      ensures var refail := b in old(cluster.bindings) && old(cluster.bindings)[b].lease !in failed;
              && moves == old(moves) + [ReconcileBinding(b, session, epoch, refail)]
              && Value() == Reconciled(old(Value()), b, session, epoch, refail)
    {
      hide Inv, Step, Play, Schedule, StartWorld, Fencing.Commit, Proven, LeaseLive;
      ok, failed' := true, failed;
      ghost var refail := b in cluster.bindings && cluster.bindings[b].lease !in failed;
      PlayOne(StartWorld(), moves, ReconcileBinding(b, session, epoch, refail));
      if b in cluster.bindings {
        var same := Adoptable(b);
        AdoptionIs(Value(), b, session, epoch, refail);
        hide Reconciled, Adopting;
        if same {
          ok := Adopt(b, session, epoch);
        } else {
          ok, failed' := FailOrFence(b, session, epoch, failed);
        }
      }
      moves := moves + [ReconcileBinding(b, session, epoch, refail)];
    }

    /** Fences an open endpoint whose binding is not preparing or active. */
    method SweepOne(place: Place, session: nat, epoch: nat)
      requires Valid() && place in endpoints
      modifies this`sent, this`pending, this`moves
      ensures Valid() && moves == old(moves) + [SweepEndpoint(place, session, epoch)]
      ensures Value() == Swept(old(Value()), place, session, epoch)
    {
      hide Inv, Step, Play, Schedule, StartWorld;
      PlayOne(StartWorld(), moves, SweepEndpoint(place, session, epoch));
      var e := endpoints[place];
      if e.open && e.binding.Some? {
        var b := e.binding.value;
        if b !in cluster.bindings || !(cluster.bindings[b].state.BPreparing? || cluster.bindings[b].state.BActive?) {
          SendOne(Effect.Drive(Op.Fence, b, place.1, place.0, e.acceptedFence, session, epoch));
        }
      }
      moves := moves + [SweepEndpoint(place, session, epoch)];
    }

    /** An agent takes a reconciliation unless it has seen a newer epoch. */
    method TakeReconcile(machine: NodeId, session: nat, epoch: nat) returns (taken: bool)
      requires Valid()
      modifies this`agents, this`moves
      ensures Valid() && moves == old(moves) + [BeginReconcile(machine, session, epoch)]
      ensures taken <==> machine in old(agents) && epoch >= old(agents)[machine].epoch
      ensures agents == if taken then old(agents)[machine := Agent(session, epoch)] else old(agents)
    {
      hide Inv, Step, Play, Schedule, StartWorld;
      PlayOne(StartWorld(), moves, BeginReconcile(machine, session, epoch));
      taken := machine in agents && epoch >= agents[machine].epoch;
      if taken {
        agents := agents[machine := Agent(session, epoch)];
      }
      moves := moves + [BeginReconcile(machine, session, epoch)];
    }

    /** The whole pass: every binding of the effect and then every endpoint of the machine is
        dealt with, each by one protocol move, unless a commit is refused on the way. */
    method ReconcileMachine(machine: NodeId, session: nat, epoch: nat, bindings: set<BindingId>) returns (ok: bool)
      requires Valid()
      modifies this, cluster
      ensures Valid() && cluster == old(cluster) && nextSession == old(nextSession) && old(moves) <= moves
      ensures ok && machine in old(agents) && epoch >= old(agents)[machine].epoch ==>
                && (forall b :: b in bindings ==>
                      exists refail :: Did(moves, |old(moves)|, ReconcileBinding(b, session, epoch, refail)))
                && (forall p :: p in endpoints && MachineOf(cluster.graph, p.1) == Some(machine) ==>
                      Did(moves, |old(moves)|, SweepEndpoint(p, session, epoch)))
    {
      hide Inv, Play, Schedule, StartWorld, MachineOf, Reconciled, Swept;
      var taken := TakeReconcile(machine, session, epoch);
      if !taken {
        return true;
      }
      ghost var from := |old(moves)|;
      var failed: set<LeaseId> := {};
      var todo := bindings;
      while todo != {}
        invariant todo <= bindings && Valid() && cluster == old(cluster) && nextSession == old(nextSession)
        invariant old(moves) <= moves
        invariant forall b :: b in bindings && b !in todo ==>
                    exists refail :: Did(moves, from, ReconcileBinding(b, session, epoch, refail))
      {
        var b :| b in todo;
        todo := todo - {b};
        ghost var before := moves;
        ok, failed := ReconcileOne(b, session, epoch, failed);
        DidMore(before, from, moves[|before|]);
        if !ok {
          return;
        }
      }
      SweepMachine(machine, session, epoch, from);
      return true;
    }

    /** The second loop of the pass: every endpoint of the machine is swept. */
    method SweepMachine(machine: NodeId, session: nat, epoch: nat, ghost from: nat)
      requires Valid() && from <= |moves|
      modifies this`sent, this`pending, this`moves
      ensures Valid() && old(moves) <= moves && forall m :: Did(old(moves), from, m) ==> Did(moves, from, m)
      ensures forall p :: p in endpoints && MachineOf(cluster.graph, p.1) == Some(machine) ==>
                Did(moves, from, SweepEndpoint(p, session, epoch))
    {
      hide Inv, Play, Schedule, StartWorld, MachineOf, Swept, Did;
      var places := set p | p in endpoints && MachineOf(cluster.graph, p.1) == Some(machine);
      var left := places;
      while left != {}
        invariant left <= places && Valid() && old(moves) <= moves
        invariant forall m :: Did(old(moves), from, m) ==> Did(moves, from, m)
        invariant forall p :: p in places && p !in left ==> Did(moves, from, SweepEndpoint(p, session, epoch))
      {
        var p :| p in left;
        left := left - {p};
        ghost var before := moves;
        SweepOne(p, session, epoch);
        DidMore(before, from, moves[|before|]);
      }
    }

    /** Delivers any effect that was sent: `inject` with a stale or repeated one, or the
        head of the queue through `DeliverOne`. */
    method Inject(e: Effect)
      requires Valid() && e in sent
      modifies this, cluster
      ensures Valid() && cluster == old(cluster)
      ensures e.Drive? ==> Value() == Delivered(old(Value()), e)
    {
      if e.Drive? {
        Drive(e);
      } else {
        var ok := ReconcileMachine(e.machine, e.session, e.epoch, e.bindings);
      }
    }

    method DeliverOne() returns (delivered: bool)
      requires Valid()
      modifies this, cluster
      ensures Valid() && cluster == old(cluster)
      ensures delivered <==> old(pending) != []
      ensures delivered && old(pending)[0].Drive? ==> Value() == Delivered(old(Value()), old(pending)[0])
    {
      hide Inv, Play, Schedule, StartWorld, Delivered;
      if pending == [] {
        return false;
      }
      var e := pending[0];
      pending := pending[1..];
      Inject(e);
      return true;
    }

    /* ---------- controller crash ---------- */

    /** Rebuilds the cluster from the committed trace. It always succeeds, and the rebuilt
        cluster is in exactly the state of the one it replaces. */
    method RestartController() returns (ok: bool)
      requires Valid()
      modifies this`cluster, this`moves
      ensures Valid() && ok && fresh(cluster) && cluster.State() == old(cluster.State())
    {
      hide Inv, Play, Schedule, StartWorld, Step, After;
      TraceRebuilds(moves);
      PlayOne(StartWorld(), moves, Move.RestartController);
      var rebuilt := new Cluster();
      for i := 0 to |trace|
        invariant cluster == old(cluster) && moves == old(moves) && fresh(rebuilt) && rebuilt.Valid()
        invariant ReplayTrace(trace[..i]) == Some(rebuilt.State())
      {
        ok := ReplayEvent(rebuilt, trace[i]);
        TraceStep(trace, i);
      }
      assert trace[..|trace|] == trace;
      cluster := rebuilt;
      moves := moves + [Move.RestartController];
      return true;
    }
  }

  /** The move was made at or after position `from`. */
  ghost predicate Did(moves: seq<Move>, from: nat, m: Move) {
    from <= |moves| && m in moves[from..]
  }

  lemma DidMore(moves: seq<Move>, from: nat, next: Move)
    requires from <= |moves|
    ensures forall m :: Did(moves, from, m) || m == next ==> Did(moves + [next], from, m)
  {
    assert (moves + [next])[from..] == moves[from..] + [next];
  }

  /** What an adopted binding is driven with again. */
  function Redrive(s: BindingState): Option<Op> {
    match s
    case BPreparing => Some(Op.Prepare)
    case BActive => Some(Op.Activate)
    case _ => None
  }

  ghost function Adopting(w: WorldState, b: BindingId, session: nat, epoch: nat): WorldState
    requires b in w.k.bindings
  {
    var op, w' := Redrive(w.k.bindings[b].state), Fencing.Commit(w, RebindSession(b, session));
    if Step(w.k, RebindSession(b, session)).Rejected? || op.None? then w'
    else Send(w', DriveFor(w, op.value, b, session, epoch))
  }

  lemma AdoptionIs(w: WorldState, b: BindingId, session: nat, epoch: nat, refail: bool)
    ensures Proven(w, b) ==> Reconciled(w, b, session, epoch, refail) == Adopting(w, b, session, epoch)
  {
    hide Step;
  }

  method ReplayEvent(cluster: Cluster, e: Event) returns (ok: bool)
    requires cluster.Valid()
    modifies cluster
    ensures cluster.Valid()
    ensures ok <==> !(e.Cmd? && Step(old(cluster.State()), e.c).Rejected?)
    ensures ok ==> cluster.State() == After(old(cluster.State()), e)
  {
    hide Inv, Step;
    ghost var k := cluster.State();
    match e {
      case Cmd(c) =>
        var reply := cluster.Apply(c);
        return reply.Some?;
      case SetNow(now) => cluster.SetNow(now);
      case SetAgreement(agreed) => cluster.SetAgreement(agreed);
      case AdvanceEpoch => cluster.AdvanceEpoch();
      case SetReplaying(on) => cluster.SetReplaying(on);
    }
    SameDecisionsKeep(k, cluster.State());
    return true;
  }

  lemma TraceRebuilds(moves: seq<Move>)
    requires Schedule(StartWorld(), moves)
    ensures var w := Play(StartWorld(), moves); ReplayTrace(w.trace) == Some(w.k)
  {
    StartSafe();
    PlaySafe(StartWorld(), moves);
    hide Schedule, Play, StartWorld;
  }

  /** Every prefix of a trace that replays does replay. */
  lemma TraceStep(trace: seq<Event>, i: nat)
    requires i < |trace| && ReplayTrace(trace).Some? && ReplayTrace(trace[..i]).Some?
    ensures var k, e := ReplayTrace(trace[..i]).value, trace[i];
            !(e.Cmd? && Step(k, e.c).Rejected?) && ReplayTrace(trace[..i + 1]) == Some(After(k, e))
  {
    hide Step, After;
    assert trace[..i + 1][..i] == trace[..i];
    if ReplayTrace(trace[..i + 1]).None? {
      TraceRefusal(trace, i + 1);
    }
  }

  lemma {:induction false} TraceRefusal(trace: seq<Event>, n: nat)
    requires n <= |trace| && ReplayTrace(trace[..n]).None?
    ensures ReplayTrace(trace).None?
  {
    hide Step, After;
    if n == |trace| {
      assert trace[..n] == trace;
    } else {
      var prefix := trace[..|trace| - 1];
      assert prefix[..n] == trace[..n];
      TraceRefusal(prefix, n);
    }
  }
}
