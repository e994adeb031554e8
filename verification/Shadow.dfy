/** Shadow times against the authority kernel: what projecting expiries charges, and that
    letting the due leases expire reaches what was projected. */
module Shadows {
  import opened Forest
  import opened Quantities
  import opened ResourceGraph
  import opened Occupancy
  import opened Kernel
  import opened Authority
  import opened Runs
  import opened Placement
  import opened Select
  import opened Preempt
  import opened Backfill
  import opened Projections
  import opened Scenario

  /* ---------- letting leases expire ---------- */

  ghost function ExpireAll(k: Kernel, due: seq<LeaseId>): Kernel {
    if due == [] then k
    else
      var before := ExpireAll(k, due[..|due| - 1]);
      var o := Expire(before, due[|due| - 1]);
      if o.Accepted? then o.k else before
  }

  /** Everything delegated from an evicted lease is evicted. */
  lemma EvictedClosed(leases: Leases, gone: set<LeaseId>, l: LeaseId, v: LeaseId)
    requires LeaseTree(leases) && v in Evicted(leases, gone) && (l == v || (l in leases && Below(leases, l, v)))
    ensures l in Evicted(leases, gone)
  {
    if l != v && v !in gone {
      var u :| u in gone && Below(leases, v, u);
      BelowTransitive(leases, l, v, u);
    }
  }

  lemma ExpireEnded(k: Kernel, v: LeaseId)
    requires LeaseTree(k.leases) && v in k.leases && Live(k.leases[v].state) && k.leases[v].expiresAt <= k.now
    ensures Expire(k, v).Accepted? && Ended(k.leases, Expire(k, v).k.leases, v) && !Live(Expire(k, v).k.leases[v].state)
    ensures forall l :: l in k.leases && l != v && !Below(k.leases, l, v) ==> Expire(k, v).k.leases[l] == k.leases[l]
  {
    hide LeaseTree, Ended, Below;
    CascadeEnds(k.leases, v, Expired, SETTLED, k.leases[v].(state := Expired));
    CascadeDomain(k.leases, v, Expired, SETTLED);
    hide BelowFences, EffectsOf;
  }

  lemma ExpireEnds(k: Kernel, v: LeaseId, gone: set<LeaseId>)
    requires LeaseTree(k.leases) && v in k.leases && Live(k.leases[v].state) && k.leases[v].expiresAt <= k.now
    requires v in gone && forall l :: l in k.leases && Below(k.leases, l, v) ==> l in gone
    ensures Expire(k, v).Accepted? && Ending(k, Expire(k, v).k, gone)
    ensures forall l :: l in k.leases && (l == v || Below(k.leases, l, v)) ==> !Live(Expire(k, v).k.leases[l].state)
  {
    ExpireEnded(k, v);
    hide LeaseTree, Expire, Below;
  }

  /** Expiring a lease that has ended changes nothing. */
  lemma ExpireAgain(k: Kernel, v: LeaseId)
    requires v in k.leases && !Live(k.leases[v].state)
    ensures Expire(k, v).Accepted? ==> Expire(k, v).k == k
  {
  }

  /** So far exactly the leases `done` and everything below them have ended. */
  ghost predicate Gone(k: Kernel, k': Kernel, done: set<LeaseId>) {
    && Inv(k') && Ending(k, k', Evicted(k.leases, done))
    && forall l :: l in Evicted(k.leases, done) ==> l in k'.leases && !Live(k'.leases[l].state)
  }

  lemma EvictedGrows(leases: Leases, done: set<LeaseId>, v: LeaseId)
    ensures Evicted(leases, done) <= Evicted(leases, done + {v})
  {
  }

  lemma EndingKeeps(k: Kernel, k': Kernel, gone: set<LeaseId>, l: LeaseId)
    requires Ending(k, k', gone) && l in k.leases && l !in gone
    ensures k'.leases[l] == k.leases[l] && k'.now == k.now
  {
  }

  lemma EndingWider(k: Kernel, k': Kernel, gone: set<LeaseId>, wider: set<LeaseId>)
    requires Ending(k, k', gone) && gone <= wider
    ensures Ending(k, k', wider)
  {
  }

  lemma EvictedAlready(leases: Leases, done: set<LeaseId>, v: LeaseId)
    requires LeaseTree(leases) && v in Evicted(leases, done)
    ensures Evicted(leases, done + {v}) == Evicted(leases, done)
  {
    EvictedAdd(leases, done, v);
    forall l | l in Evicted(leases, done + {v})
      ensures l in Evicted(leases, done)
    {
      if l == v || (l in leases && Below(leases, l, v)) {
        EvictedClosed(leases, done, l, v);
      }
    }
  }

  lemma ExpireNext(k: Kernel, before: Kernel, done: set<LeaseId>, v: LeaseId)
    requires LeaseTree(k.leases) && Gone(k, before, done)
    requires v in k.leases && Live(k.leases[v].state) && k.leases[v].expiresAt <= k.now
    ensures Gone(k, if Expire(before, v).Accepted? then Expire(before, v).k else before, done + {v})
  {
    if v in Evicted(k.leases, done) {
      EvictedAlready(k.leases, done, v);
      hide Inv, LeaseTree, Ending, Evicted, Expire;
      ExpireAgain(before, v);
    } else {
      ExpireFirst(k, before, done, v);
    }
  }

  lemma ExpireFirst(k: Kernel, before: Kernel, done: set<LeaseId>, v: LeaseId)
    requires Gone(k, before, done) && v !in Evicted(k.leases, done)
    requires v in k.leases && Live(k.leases[v].state) && k.leases[v].expiresAt <= k.now
    ensures Expire(before, v).Accepted? && Gone(k, Expire(before, v).k, done + {v})
  {
    hide Inv, LeaseTree, Ending, Evicted, Below, Expire, Live;
    var gone := Evicted(k.leases, done + {v});
    EndingKeeps(k, before, Evicted(k.leases, done), v);
    TreeOf(before);
    EndingKeys(k, before, Evicted(k.leases, done));
    BelowStays(k, before, Evicted(k.leases, done));
    EvictedGrows(k.leases, done, v);
    EvictedHolds(k.leases, done + {v}, v);
    EvictedAdd(k.leases, done, v);
    EndingWider(k, before, Evicted(k.leases, done), gone);
    ExpireEnds(before, v, gone);
    ExpireKeeps(before, v);
    EndingTransitive(k, before, Expire(before, v).k, gone);
    EndingKeys(before, Expire(before, v).k, gone);
    ExpiredStaysEnded(before, v);
  }

  lemma ExpiredStaysEnded(k: Kernel, v: LeaseId)
    requires Expire(k, v).Accepted?
    ensures forall l :: l in k.leases && !Live(k.leases[l].state) ==>
              l in Expire(k, v).k.leases && !Live(Expire(k, v).k.leases[l].state)
  {
    ExpireStable(k, v);
    hide Expire;
    var k' := Expire(k, v).k;
    forall l | l in k.leases && !Live(k.leases[l].state)
      ensures l in k'.leases && !Live(k'.leases[l].state)
    {
      assert LeaseLater(k.leases[l], k'.leases[l]);
    }
  }

  lemma NothingGone(k: Kernel)
    requires Inv(k)
    ensures Gone(k, k, {})
  {
    hide Inv, Below;
    assert Evicted(k.leases, {}) == {};
  }

  lemma {:induction false} ExpireAllEnds(k: Kernel, due: seq<LeaseId>)
    requires Inv(k) && forall v :: v in due ==>
               v in k.leases && Live(k.leases[v].state) && k.leases[v].expiresAt <= k.now
    ensures Gone(k, ExpireAll(k, due), Elements(due))
  {
    hide Inv, LeaseTree;
    TreeOf(k);
    if due == [] {
      NothingGone(k);
    } else {
      var prefix, v := due[..|due| - 1], due[|due| - 1];
      assert due == prefix + [v];
      assert Elements(due) == Elements(prefix) + {v};
      hide Gone, Expire;
      ExpireAllEnds(k, prefix);
      ExpireNext(k, ExpireAll(k, prefix), Elements(prefix), v);
    }
  }

  /* ---------- what expiry leaves ---------- */

  /** Cascades end more than the due leases, and what is charged then is among what the
      projection charges. */
  lemma CascadeChargesLess(leases: Leases, occ: set<LeaseId>, due: set<LeaseId>)
    requires LeaseTree(leases) && occ <= leases.Keys
    ensures Roots(leases, occ - Evicted(leases, due)) <= Roots(leases, occ - due)
  {
    forall l | l in Roots(leases, occ - Evicted(leases, due))
      ensures l in Roots(leases, occ - due)
    {
      if leases[l].parent.Some? {
        var p := leases[l].parent.value;
        BelowStep(leases, l, p);
        if p in Evicted(leases, due) {
          EvictedClosed(leases, due, l, p);
        }
      }
    }
  }

  lemma CoversWithLess(g: Graph, used: Used, used': Used, claims: seq<Claim>)
    requires CoversAll(g, used, claims) && forall n, d :: Get(UsedOn(used', n), d) <= Get(UsedOn(used, n), d)
    ensures CoversAll(g, used', claims)
  {
    forall i | 0 <= i < |claims|
      ensures CanCover(g, used', claims[i])
    {
      assert CanCover(g, used, claims[i]);
      hide UsedOn;
    }
  }

  lemma DueAreLive(k: Kernel, t: nat, due: seq<LeaseId>)
    requires Elements(due) == DueBy(k.leases, t)
    ensures forall v :: v in due ==> v in k.leases && Live(k.leases[v].state) && k.leases[v].expiresAt <= t
  {
    forall v | v in due
      ensures v in DueBy(k.leases, t)
    {
      assert v in Elements(due);
    }
  }

  /** A shadow time is reached: when every lease due by then expires with its cascade and the
      fences of their bindings are acknowledged, what fitted the projection fits the
      kernel's own occupancy. */
  lemma ShadowIsReached(k: Kernel, excluded: map<nat, set<NodeId>>, t: nat, due: seq<LeaseId>, bs: seq<BindingId>,
      claims: seq<Claim>)
    requires Inv(k) && Elements(due) == DueBy(k.leases, t) && OpenBindingsOf(k, Elements(due), bs)
    requires CoversAll(k.graph, Projected(ContextOf(k, excluded), DueBy(k.leases, t)), claims)
    ensures var k' := FenceAll(ExpireAll(k.(now := t), due), bs);
            Inv(k') && CoversAll(k'.graph, OccupancyExcept(k', {}), claims)
  {
    hide Inv, LeaseTree, DueBy, CoversAll, Below, Evicted, Ending, OccupancyExcept, Reachable;
    var kt, gone := k.(now := t), Evicted(k.leases, DueBy(k.leases, t));
    SameDecisionsKeep(k, kt);
    DueAreLive(k, t, due);
    OpenHaveSessions(kt);
    ExpireAllEnds(kt, due);
    AfterEnding(kt, ExpireAll(kt, due), bs, gone);
    hide ExpireAll, FenceAll;
    ProjectedIs(k, excluded, DueBy(k.leases, t));
    ProjectionCoversMore(k, DueBy(k.leases, t), claims);
    SameOccupancy(k, kt, gone);
  }

  lemma ProjectedIs(k: Kernel, excluded: map<nat, set<NodeId>>, except: set<LeaseId>)
    ensures Projected(ContextOf(k, excluded), except) == OccupancyExcept(k, except)
  {
  }

  lemma SameOccupancy(k: Kernel, k': Kernel, except: set<LeaseId>)
    requires k'.leases == k.leases && k'.bindings == k.bindings
    ensures OccupancyExcept(k', except) == OccupancyExcept(k, except)
  {
  }

  /** What fits beside the projection fits once the cascades have run too. */
  lemma ProjectionCoversMore(k: Kernel, due: set<LeaseId>, claims: seq<Claim>)
    requires Inv(k) && CoversAll(k.graph, OccupancyExcept(k, due), claims)
    ensures CoversAll(k.graph, OccupancyExcept(k, Evicted(k.leases, due)), claims)
  {
    hide Inv, LeaseTree, CoversAll, Below, Evicted, Roots, UsedBy, UsedOn;
    TreeOf(k);
    LeftOut(k, Evicted(k.leases, due));
    LeftOut(k, due);
    var occ := Occ(k.leases, k.bindings);
    CascadeChargesLess(k.leases, occ, due);
    var fewer, more := Roots(k.leases, occ - Evicted(k.leases, due)), Roots(k.leases, occ - due);
    forall n, d
      ensures Get(UsedOn(UsedBy(k.leases, fewer), n), d) <= Get(UsedOn(UsedBy(k.leases, more), n), d)
    {
      UsedReads(k.leases, fewer, n, d);
      UsedReads(k.leases, more, n, d);
      UsageMonotone(k.leases, fewer, more, n, d);
    }
    CoversWithLess(k.graph, UsedBy(k.leases, more), UsedBy(k.leases, fewer), claims);
  }

  /** The whole of backfill: the chosen request is opened, the leases due by a head's shadow
      time expire and are fenced, and the head's shadow claims fit what the kernel charges. */
  lemma HeadFitsOnTime(k: Kernel, excluded: map<nat, set<NodeId>>, select: Selector, within: Request -> bool,
                       queue: seq<Request>, choice: seq<Claim>, heads: seq<Option<Head>>, c: Command, j: nat,
                       due: seq<LeaseId>, bs: seq<BindingId>)
    requires Inv(k) && Covering(select) && j < |heads| < |queue| && heads[j].Some? && heads[j].value.shadow.Some?
    requires Judged(ContextOf(k, excluded), select, within, queue[j], heads[j])
    requires SafeBesideAll(choice, SaturatingAdd(k.now, queue[|heads|].lifetime), heads)
    requires c.OpenLease? && c.lease !in k.leases && c.parent.None? && Open(k, c).Accepted?
    requires Resolve(k.graph, c.claims) == choice && c.expiresAt == SaturatingAdd(k.now, queue[|heads|].lifetime)
    requires Elements(due) == DueBy(Open(k, c).k.leases, heads[j].value.shadow.value)
    requires OpenBindingsOf(Open(k, c).k, Elements(due), bs)
    ensures var k' := FenceAll(ExpireAll(Open(k, c).k.(now := heads[j].value.shadow.value), due), bs);
            Inv(k') && CoversAll(k'.graph, OccupancyExcept(k', {}), heads[j].value.claims)
  {
    hide Inv, Open, Judged, Covering, Projected, CoversAll, DueBy, OpenBindingsOf, Resolve, SafeBesideAll;
    OpeningProtects(k, excluded, select, within, queue, choice, heads, c, j);
    OpenKeeps(k, c);
    ShadowIsReached(Open(k, c).k, excluded, heads[j].value.shadow.value, due, bs, heads[j].value.claims);
  }

  /** Placement that returns solutions covers what it claims. */
  lemma SolvingCovers(select: Selector)
    requires Solves(select)
    ensures Covering(select)
  {
    forall s, r | select(s, r).Some?
      ensures CoversAll(s.graph, s.used, select(s, r).value)
    {
      var picked :| Solution(s, s.graph.nodes.Keys, r, picked) && Flatten(picked) == select(s, r).value;
      SolutionCovers(s, s.graph.nodes.Keys, r, picked);
    }
  }

  /* ---------- when projecting expiries is clean ---------- */

  /** `l` still counts once `x` is due. */
  ghost predicate Outlasts(leases: Leases, l: LeaseId, x: LeaseId) {
    l in leases && x in leases && (!Live(leases[l].state) || leases[l].expiresAt > leases[x].expiresAt)
  }

  /** No lease falls due before both a lease it was delegated from and one delegated from it. */
  ghost predicate NoGap(leases: Leases, occ: set<LeaseId>) {
    forall x, c, a ::
      && x in occ && c in occ && a in occ && Below(leases, c, x) && Below(leases, x, a)
      && x in leases && Live(leases[x].state) ==>
        !Outlasts(leases, c, x) || !Outlasts(leases, a, x)
  }

  /** Projections at all times charge each lineage once and fit the capacity exactly when no
      lease falls due between a longer one above it and a longer one below it. */
  lemma DueIsCleanIff(leases: Leases, occ: set<LeaseId>)
    requires occ <= leases.Keys
    ensures (forall t :: Clean(leases, occ, DueBy(leases, t))) <==> NoGap(leases, occ)
  {
    hide Below;
    if forall t :: Clean(leases, occ, DueBy(leases, t)) {
      forall x, c, a | x in occ && c in occ && a in occ && Below(leases, c, x) && Below(leases, x, a)
             && Live(leases[x].state)
        ensures !Outlasts(leases, c, x) || !Outlasts(leases, a, x)
      {
        assert Clean(leases, occ, DueBy(leases, leases[x].expiresAt));
      }
    }
    if NoGap(leases, occ) {
      forall t
        ensures Clean(leases, occ, DueBy(leases, t))
      {
        GapFreeIsClean(leases, occ, t);
      }
    }
  }

  lemma GapFreeIsClean(leases: Leases, occ: set<LeaseId>, t: nat)
    requires occ <= leases.Keys && NoGap(leases, occ)
    ensures Clean(leases, occ, DueBy(leases, t))
  {
    hide Below;
  }

  /** If `l` is due at the future expiry of `e`, so is `c` below it or `a` above it. */
  ghost predicate NoGapAt(x: Context, l: LeaseId, c: LeaseId, a: LeaseId, e: LeaseId) {
    && {l, c, a, e} <= Occupying(x.leases, x.open, {}) && Below(x.leases, c, l) && Below(x.leases, l, a)
    && x.now < x.leases[e].expiresAt && l in DueBy(x.leases, x.leases[e].expiresAt) ==>
      c in DueBy(x.leases, x.leases[e].expiresAt) || a in DueBy(x.leases, x.leases[e].expiresAt)
  }

  /** The same at the times admission looks at: the projections to the future expiries of
      occupying leases are clean exactly when at none of them a lease is due that lies
      between two that are not. */
  lemma ProjectionsCleanIff(x: Context)
    ensures var occ := Occupying(x.leases, x.open, {});
            (forall t :: t in Times(x) ==> Clean(x.leases, occ, DueBy(x.leases, t))) <==>
            (forall l, c, a, e :: NoGapAt(x, l, c, a, e))
  {
    hide Below, DueBy;
    var occ := Occupying(x.leases, x.open, {});
    if forall t :: t in Times(x) ==> Clean(x.leases, occ, DueBy(x.leases, t)) {
      forall l, c, a, e
        ensures NoGapAt(x, l, c, a, e)
      {
        if e in occ && x.now < x.leases[e].expiresAt {
          assert Clean(x.leases, occ, DueBy(x.leases, x.leases[e].expiresAt));
        }
      }
    }
    if forall l, c, a, e :: NoGapAt(x, l, c, a, e) {
      forall t | t in Times(x)
        ensures Clean(x.leases, occ, DueBy(x.leases, t))
      {
        var e :| e in occ && x.leases[e].expiresAt == t && t > x.now;
        forall l, c, a | l in occ && l in DueBy(x.leases, t) && c in occ && c !in DueBy(x.leases, t)
                         && Below(x.leases, c, l) && a in occ && Below(x.leases, l, a)
          ensures a in DueBy(x.leases, t)
        {
          assert NoGapAt(x, l, c, a, e);
        }
      }
    }
  }

  /** A preemption plan leaves out whole subtrees, so its projections are clean and fit. */
  lemma EvictionsFit(k: Kernel, victims: set<LeaseId>, part: set<LeaseId>, n: NodeId, d: Dimension)
    requires Inv(k) && part <= Roots(k.leases, OccupyingExcept(k.leases, k.bindings, Evicted(k.leases, victims)))
    ensures Clean(k.leases, Occ(k.leases, k.bindings), Evicted(k.leases, victims))
    ensures Usage(k.leases, part, n, d) <= Get(CapacityOf(k.graph, n), d)
  {
    var gone, occ := Evicted(k.leases, victims), Occ(k.leases, k.bindings);
    TreeOf(k);
    LeftOut(k, {});
    hide Inv, Clean, LeaseTree;
    forall x, c | x in gone && c in occ && Below(k.leases, c, x)
      ensures c in gone
    {
      EvictedClosed(k.leases, victims, c, x);
    }
    hide Below;
    WholeSubtreesAreClean(k.leases, occ, gone);
    CleanFits(k, gone, part, n, d);
  }

  /* ---------- a lineage charged twice ---------- */

  /** A root lease until 100, a lease delegated from it until 50, and one from that until 80,
      each claiming the whole machine. */
  function Delegated(q: nat): seq<Event> {
    [Cmd(Describe(q)), Cmd(SetAgentSession(HOST, SESSION)), Cmd(OpenFor(q, 1, None, 100)), Cmd(BIND),
     Cmd(RecordPrepared(1, SESSION, 0, 1)), Cmd(ActivateLease(1)), Cmd(OpenFor(q, 2, Some(1), 50)),
     Cmd(ActivateLease(2)), Cmd(OpenFor(q, 3, Some(2), 80))]
  }

  function Chain(q: nat): Leases {
    map[1 := LeaseFor(q, None, 100, Active), 2 := LeaseFor(q, Some(1), 50, Active),
        3 := LeaseFor(q, Some(2), 80, Preparing)]
  }

  lemma Next(events: seq<Event>, c: Command)
    requires Step(Run(Initial(), events), c).Accepted?
    ensures Run(Initial(), events + [Cmd(c)]) == Step(Run(Initial(), events), c).k
  {
    hide Step;
    assert (events + [Cmd(c)])[..|events|] == events;
  }

  lemma RootRuns(q: nat) returns (g: Graph)
    requires q > 0
    ensures Described(g, q)
    ensures Run(Initial(), Delegated(q)[..6]) == State(g, map[1 := LeaseFor(q, None, 100, Active)], PREPARED_BINDING)
  {
    hide Step, Described;
    var all := Delegated(q);
    StepDescribe(q);
    g := Step(Initial(), Describe(q)).k.graph;
    Next([], Describe(q));
    assert all[..1] == [] + [Cmd(Describe(q))];
    StepSession(g, q);
    Next(all[..1], SetAgentSession(HOST, SESSION));
    assert all[..2] == all[..1] + [Cmd(SetAgentSession(HOST, SESSION))];
    hide Run;
    StepOpenRoot(g, q);
    Next(all[..2], OpenFor(q, 1, None, 100));
    assert all[..3] == all[..2] + [Cmd(OpenFor(q, 1, None, 100))];
    StepBind(g, q);
    Next(all[..3], BIND);
    assert all[..4] == all[..3] + [Cmd(BIND)];
    StepPrepared(g, q);
    Next(all[..4], RecordPrepared(1, SESSION, 0, 1));
    assert all[..5] == all[..4] + [Cmd(RecordPrepared(1, SESSION, 0, 1))];
    StepActivate(g, q);
    Next(all[..5], ActivateLease(1));
    assert all[..6] == all[..5] + [Cmd(ActivateLease(1))];
  }

  lemma ChainRuns(q: nat) returns (g: Graph)
    requires q > 0
    ensures Described(g, q) && Run(Initial(), Delegated(q)) == State(g, Chain(q), PREPARED_BINDING)
  {
    hide Step, Described, Run;
    var all, root := Delegated(q), map[1 := LeaseFor(q, None, 100, Active)];
    g := RootRuns(q);
    StepDelegate(g, q, root, 1, 2, 50);
    Next(all[..6], OpenFor(q, 2, Some(1), 50));
    assert all[..7] == all[..6] + [Cmd(OpenFor(q, 2, Some(1), 50))];
    var two := root[2 := LeaseFor(q, Some(1), 50, Preparing)];
    StepActivateChild(g, q, two, 2, 1, 50);
    Next(all[..7], ActivateLease(2));
    assert all[..8] == all[..7] + [Cmd(ActivateLease(2))];
    var active := two[2 := LeaseFor(q, Some(1), 50, Active)];
    StepDelegate(g, q, active, 2, 3, 80);
    Next(all[..8], OpenFor(q, 3, Some(2), 80));
    assert all == all[..8] + [Cmd(OpenFor(q, 3, Some(2), 80))];
    assert active[3 := LeaseFor(q, Some(2), 80, Preparing)] == Chain(q);
  }

  lemma ChainCharged(q: nat)
    ensures Roots(Chain(q), OccupyingExcept(Chain(q), PREPARED_BINDING, DueBy(Chain(q), 50))) == {1, 3}
  {
    assert DueBy(Chain(q), 50) == {2};
    assert OccupyingExcept(Chain(q), PREPARED_BINDING, {2}) == {1, 3};
  }

  /** In a reachable state, projecting to time 50 leaves out the middle of a lineage, charges
      both its ends, and so charges twice the capacity of the machine. */
  lemma ProjectionChargesTwice(q: nat)
    requires q > 0
    ensures var k := Run(Initial(), Delegated(q));
            && Roots(k.leases, OccupyingExcept(k.leases, k.bindings, DueBy(k.leases, 50))) == {1, 3}
            && Usage(k.leases, {1, 3}, HOST, COUNT) == 2 * q && Get(CapacityOf(k.graph, HOST), COUNT) == q
  {
    hide Step, Run;
    var g := ChainRuns(q);
    ChainCharged(q);
    var leases := Chain(q);
    hide Roots, DueBy, OccupyingExcept, Usage;
    UsageOfNone(leases, {}, HOST, COUNT);
    UsageRemove(leases, {1, 3}, 1, HOST, COUNT);
    UsageRemove(leases, {3}, 3, HOST, COUNT);
    assert {1, 3} - {1} == {3} && {3} - {3} == {};
    AmountOfClaim(Whole(q), 0, COUNT);
  }
}
