/** Two runs of the controller in which an effect that is not a close is held, and its member
    is then proven stopped: the state in which driving what is held aborts. */
module Straggler {
  import opened ResourceGraph
  import opened Occupancy
  import opened Kernel
  import opened StopGate
  import opened Scenario

  const STOP := StopTag(1, HOST, SESSION)
  const PREPARED := BindingTag(1, SESSION, 1, Prepare)

  /** A lease is opened and its first binding too, but nothing is routed yet: the code stops
      here when a second binding of the lease is refused. */
  const OPENED: seq<Turn> :=
    [Decide(Describe(1)), Decide(SetAgentSession(HOST, SESSION)), Decide(OpenFor(1, 1, None, 100)), Decide(BIND)]

  /** The lease is revoked before its prepare is routed. */
  const HELD_PREPARE := OPENED + [Decide(RevokeLease(1)), RoutePending(Request(Prepare)), StopAnswer(STOP)]

  /** The lease is revoked between its activation and the routing of its activate. */
  const HELD_ACTIVATE :=
    OPENED + [RoutePending(Request(Prepare)), BindingAnswer(PREPARED, false, 0), Decide(ActivateLease(1)),
              Decide(ActivateBinding(1)), Decide(RevokeLease(1)), RoutePending(Request(Activate)), StopAnswer(STOP)]

  /** `turns` is a run that ends in a service with this kernel, these requests in flight and
      this effect pending, nothing held and nothing proven. */
  ghost predicate Reaches(turns: seq<Turn>, k: Kernel, inflight: set<Tag>, e: Effect) {
    Shift(Fresh({1}), turns)
    && var s := Worked(Fresh({1}), turns);
       s.k == k && s.programs == {1} && s.stopped == {} && s.inflight == inflight && s.held == {} && e in s.pending
  }

  function Leased(g: Graph, s: LeaseState, x: Binding): Kernel {
    State(g, map[1 := LeaseFor(1, None, 100, s)], map[1 := x])
  }

  /** A decision the kernel accepts moves the kernel and queues its effects. */
  lemma Decided(turns: seq<Turn>, k: Kernel, inflight: set<Tag>, e: Effect, c: Command, k': Kernel)
    requires Reaches(turns, k, inflight, e) && Decidable(k, c) && Step(k, c).Accepted? && Step(k, c).k == k'
    ensures Reaches(turns + [Decide(c)], k', inflight, e)
    ensures forall f :: f in Step(k, c).effects ==> Reaches(turns + [Decide(c)], k', inflight, f)
  {
    OneMoreTurn(Fresh({1}), turns, Decide(c));
    hide Step, Shift, Worked, Fresh, Decidable;
  }

  const JOINED: seq<Turn> := [Decide(Describe(1)), Decide(SetAgentSession(HOST, SESSION))]
  const RECONCILE := Reconcile(HOST, SESSION, 1, {})

  lemma DescribedFirst() returns (g: Graph)
    ensures Described(g, 1) && Shift(Fresh({1}), [Decide(Describe(1))])
    ensures Worked(Fresh({1}), [Decide(Describe(1))]) == Fresh({1}).(k := Initial().(graph := g))
  {
    hide Step, Described, Shift, Worked, Describe, Initial;
    StepDescribe(1);
    g := Step(Initial(), Describe(1)).k.graph;
    NoTurns(Fresh({1}));
    DescribeIsFree(Initial(), 1);
    OneMoreTurn(Fresh({1}), [], Decide(Describe(1)));
    assert [] + [Decide(Describe(1))] == [Decide(Describe(1))];
  }

  lemma NoTurns(s: Service)
    ensures Shift(s, []) && Worked(s, []) == s
  {
  }

  lemma DescribeIsFree(k: Kernel, q: nat)
    ensures Decidable(k, Describe(q))
  {
  }

  lemma JoinedReaches() returns (g: Graph)
    ensures Described(g, 1) && Reaches(JOINED, State(g, map[], map[]), {}, RECONCILE)
  {
    hide Step, Shift, Worked;
    g := DescribedFirst();
    StepSession(g, 1);
    OneMoreTurn(Fresh({1}), [Decide(Describe(1))], Decide(SetAgentSession(HOST, SESSION)));
    assert JOINED == [Decide(Describe(1))] + [Decide(SetAgentSession(HOST, SESSION))];
  }

  lemma OpenedReaches() returns (g: Graph)
    ensures Described(g, 1) && Reaches(OPENED, Leased(g, Preparing, BindingFor(BPreparing, None)), {}, Request(Prepare))
  {
    hide Step, Shift, Worked, Fresh, Reaches, Described, Decidable;
    g := JoinedReaches();
    DecideIsFree();
    StepOpenRoot(g, 1);
    var leases := map[1 := LeaseFor(1, None, 100, Preparing)];
    Decided(JOINED, State(g, map[], map[]), {}, RECONCILE, OpenFor(1, 1, None, 100), State(g, leases, map[]));
    var third := JOINED + [Decide(OpenFor(1, 1, None, 100))];
    StepBind(g, 1);
    Decided(third, State(g, leases, map[]), {}, RECONCILE, BIND, Leased(g, Preparing, BindingFor(BPreparing, None)));
    assert OPENED == third + [Decide(BIND)];
  }

  lemma DecideIsFree()
    ensures forall k, c: Command ::
              c.OpenLease? || c.OpenBinding? || c.ActivateLease? || c.ActivateBinding? || c.RevokeLease? ==>
              Decidable(k, c)
  {
  }

  /** The lease has ended: a pending prepare or activate is held, its member is asked to
      stop, and the acknowledgement proves the member gone while the effect is still held. */
  lemma StragglerIsHeld(turns: seq<Turn>, g: Graph, x: Binding, op: Op)
    requires Described(g, 1) && x.lease == 1 && x.node == HOST && x.session == SESSION && !Closes(op)
    requires Reaches(turns, Leased(g, Revoked, x), {}, Request(op))
    ensures var run := turns + [RoutePending(Request(op)), StopAnswer(STOP)];
            Shift(Fresh({1}), run) && (1, op) in Worked(Fresh({1}), run).held && Jams(Worked(Fresh({1}), run), (1, op))
  {
    HostIsMachine(g, 1);
    var s, route := Worked(Fresh({1}), turns), RoutePending(Request(op));
    OneMoreTurn(Fresh({1}), turns, route);
    hide Step, Shift, MachineOf, Fresh;
    RoutedToHold(s, g, x, op);
    hide Routed, Worked;
    OneMoreTurn(Fresh({1}), turns + [route], StopAnswer(STOP));
    assert turns + [route] + [StopAnswer(STOP)] == turns + [route, StopAnswer(STOP)];
  }

  lemma RoutedToHold(s: Service, g: Graph, x: Binding, op: Op)
    requires Described(g, 1) && x.lease == 1 && x.node == HOST && x.session == SESSION
    requires s.k == Leased(g, Revoked, x) && s.programs == {1} && s.stopped == {}
    ensures Routed(s, 1, op) == s.(held := s.held + {(1, op)}, inflight := s.inflight + {STOP})
  {
    HostIsMachine(g, 1);
    hide Step, MachineOf;
    assert Whole(1)[0].node == HOST;
    assert LeaseMachines(s.k, 1) == {HOST};
    assert StopRequests(s, 1) == {STOP};
  }

  /** A prepare can be held with its member proven stopped. */
  lemma PrepareIsHeld()
    ensures Shift(Fresh({1}), HELD_PREPARE) && (1, Prepare) in Worked(Fresh({1}), HELD_PREPARE).held
    ensures Jams(Worked(Fresh({1}), HELD_PREPARE), (1, Prepare))
  {
    hide Step, Shift, Worked, Fresh, Reaches, Decidable, Jams;
    var g := OpenedReaches();
    var x := BindingFor(BPreparing, None);
    DecideIsFree();
    StepRevoke(g, 1, Preparing, x);
    var turns := OPENED + [Decide(RevokeLease(1))];
    Decided(OPENED, Leased(g, Preparing, x), {}, Request(Prepare), RevokeLease(1), Leased(g, Revoked, x));
    StragglerIsHeld(turns, g, x, Prepare);
    assert HELD_PREPARE == turns + [RoutePending(Request(Prepare)), StopAnswer(STOP)];
  }

  /** While the lease is live its prepare goes out and is answered. */
  lemma PreparedReaches(g: Graph)
    requires Described(g, 1)
    requires Reaches(OPENED, Leased(g, Preparing, BindingFor(BPreparing, None)), {}, Request(Prepare))
    ensures Reaches(OPENED + [RoutePending(Request(Prepare)), BindingAnswer(PREPARED, false, 0)],
                    Leased(g, Preparing, BindingFor(BPreparing, Some(0))), {}, Request(Prepare))
  {
    hide Step, Shift, Fresh, Routed, Worked, Described, State;
    var s, route := Worked(Fresh({1}), OPENED), RoutePending(Request(Prepare));
    RoutedToAgent(s, g);
    StepPrepared(g, 1);
    OneMoreTurn(Fresh({1}), OPENED, route);
    OneMoreTurn(Fresh({1}), OPENED + [route], BindingAnswer(PREPARED, false, 0));
    assert OPENED + [route] + [BindingAnswer(PREPARED, false, 0)] ==
           OPENED + [route, BindingAnswer(PREPARED, false, 0)];
  }

  lemma RoutedToAgent(s: Service, g: Graph)
    requires Described(g, 1) && s.k == Leased(g, Preparing, BindingFor(BPreparing, None))
    ensures Routed(s, 1, Prepare) == s.(inflight := s.inflight + {PREPARED})
  {
    HostIsMachine(g, 1);
    hide Step, MachineOf;
  }

  /** An activate can be held with its member proven stopped. */
  lemma ActivateIsHeld()
    ensures Shift(Fresh({1}), HELD_ACTIVATE) && (1, Activate) in Worked(Fresh({1}), HELD_ACTIVATE).held
    ensures Jams(Worked(Fresh({1}), HELD_ACTIVATE), (1, Activate))
  {
    hide Step, Shift, Worked, Fresh, Reaches, Decidable, Jams;
    var g := OpenedReaches();
    PreparedReaches(g);
    DecideIsFree();
    var prepared, active := BindingFor(BPreparing, Some(0)), BindingFor(BActive, Some(0));
    var turns := OPENED + [RoutePending(Request(Prepare)), BindingAnswer(PREPARED, false, 0)];
    StepActivate(g, 1);
    Decided(turns, Leased(g, Preparing, prepared), {}, Request(Prepare), ActivateLease(1), Leased(g, Active, prepared));
    var next := turns + [Decide(ActivateLease(1))];
    StepActivateBinding(g, 1);
    Decided(next, Leased(g, Active, prepared), {}, Request(Prepare), ActivateBinding(1), Leased(g, Active, active));
    var last := next + [Decide(ActivateBinding(1))];
    StepRevoke(g, 1, Active, active);
    Decided(last, Leased(g, Active, active), {}, Request(Activate), RevokeLease(1), Leased(g, Revoked, active));
    StragglerIsHeld(last + [Decide(RevokeLease(1))], g, active, Activate);
    assert HELD_ACTIVATE == last + [Decide(RevokeLease(1))] + [RoutePending(Request(Activate)), StopAnswer(STOP)];
  }
}
