/** EASY backfill (crates/kernel/src/admit.rs): a later request may start early only where
    it cannot delay a blocked request ahead of it. */
module Backfill {
  import opened Quantities
  import opened ResourceGraph
  import opened Occupancy
  import opened Kernel
  import opened Authority
  import opened Placement
  import opened Select
  import opened Preempt

  /** What admission reads. `excluded` holds the nodes a request can never use. */
  datatype Context = Context(
    graph: Graph, leases: Leases, open: set<LeaseId>, blocked: set<NodeId>, now: nat, excluded: map<nat, set<NodeId>>)

  /** A request that cannot start: when its capacity frees, if that is known, and what it
      would claim then. */
  datatype Head = Head(shadow: Option<nat>, claims: seq<Claim>)

  function SaturatingAdd(a: nat, b: nat): nat {
    if a + b <= U64_MAX then a + b else U64_MAX
  }

  function Excluded(x: Context, r: Request): set<NodeId> {
    if r.id in x.excluded then x.excluded[r.id] else {}
  }

  ghost function Projected(x: Context, except: set<LeaseId>): Used {
    UsedBy(x.leases, Roots(x.leases, Occupying(x.leases, x.open, except)))
  }

  /** The live leases that expire by `t`; ended leases with open bindings stay. */
  function DueBy(leases: Leases, t: nat): set<LeaseId> {
    set l | l in leases && Live(leases[l].state) && leases[l].expiresAt <= t
  }

  function Times(x: Context): set<nat> {
    set l | l in Occupying(x.leases, x.open, {}) && l in x.leases && x.leases[l].expiresAt > x.now ::
        x.leases[l].expiresAt
  }

  ghost function SceneNow(x: Context, r: Request): Scene {
    Scene(x.graph, Projected(x, {}), x.blocked + Excluded(x, r))
  }

  ghost function SceneAt(x: Context, r: Request, t: nat): Scene {
    Scene(x.graph, Projected(x, DueBy(x.leases, t)), x.blocked + Excluded(x, r))
  }

  /** The scene once every occupying lease is gone. */
  ghost function SceneEmpty(x: Context, r: Request): Scene {
    Scene(x.graph, Projected(x, Occupying(x.leases, x.open, {})), x.blocked + Excluded(x, r))
  }

  /** The earliest expiry at which the request selects; no time if it selects only once
      everything is gone; nothing if it never does. */
  ghost predicate IsShadow(x: Context, select: Selector, r: Request, h: Option<Head>) {
    if h.Some? && h.value.shadow.Some? then
      var t := h.value.shadow.value;
      && t in Times(x) && select(SceneAt(x, r, t), r) == Some(h.value.claims)
      && forall u :: u in Times(x) && u < t ==> select(SceneAt(x, r, u), r).None?
    else
      && (forall u :: u in Times(x) ==> select(SceneAt(x, r, u), r).None?)
      && select(SceneEmpty(x, r), r) == if h.Some? then Some(h.value.claims) else None
  }

  ghost predicate IsHead(x: Context, select: Selector, r: Request, h: Option<Head>) {
    var unblocked := select(Scene(x.graph, Projected(x, {}), Excluded(x, r)), r);
    if unblocked.Some? then h == Some(Head(None, unblocked.value)) else IsShadow(x, select, r, h)
  }

  function ClaimedNodes(claims: seq<Claim>): set<NodeId> {
    set i | 0 <= i < |claims| :: claims[i].node
  }

  /** The candidate is done by the head's time, or touches none of its nodes. */
  predicate SafeBeside(claims: seq<Claim>, finishes: nat, h: Head) {
    (h.shadow.Some? && finishes <= h.shadow.value) || ClaimedNodes(claims) !! ClaimedNodes(h.claims)
  }

  predicate SafeBesideAll(claims: seq<Claim>, finishes: nat, heads: seq<Option<Head>>) {
    forall j :: 0 <= j < |heads| && heads[j].Some? ==> SafeBeside(claims, finishes, heads[j].value)
  }

  lemma {:induction false} LeastExists(s: set<nat>) returns (least: nat)
    requires s != {}
    ensures least in s && forall x :: x in s ==> least <= x
    decreases |s|
  {
    var x :| x in s;
    if s == {x} {
      least := x;
    } else {
      assert s == (s - {x}) + {x};
      var y := LeastExists(s - {x});
      least := if x < y then x else y;
    }
  }

  method ShadowHead(x: Context, select: Selector, r: Request) returns (h: Option<Head>)
    ensures IsShadow(x, select, r, h)
  {
    var todo := Times(x);
    while todo != {}
      invariant todo <= Times(x)
      invariant forall u :: u in Times(x) && u !in todo ==> select(SceneAt(x, r, u), r).None?
    {
      ghost var least := LeastExists(todo);
      var t :| t in todo && forall u :: u in todo ==> t <= u;
      var used := OccupancyFromLeases(x.leases, x.open, DueBy(x.leases, t));
      var claims := select(Scene(x.graph, used, x.blocked + Excluded(x, r)), r);
      if claims.Some? {
        return Some(Head(Some(t), claims.value));
      }
      todo := todo - {t};
    }
    var used := OccupancyFromLeases(x.leases, x.open, Occupying(x.leases, x.open, {}));
    var claims := select(Scene(x.graph, used, x.blocked + Excluded(x, r)), r);
    return if claims.Some? then Some(Head(None, claims.value)) else None;
  }

  /** How one request ahead was judged. Requests over quota and requests that could start
      but were not safe block nobody. */
  ghost predicate Judged(x: Context, select: Selector, within: Request -> bool, r: Request, h: Option<Head>) {
    if !within(r) || select(SceneNow(x, r), r).Some? then h.None? else IsHead(x, select, r, h)
  }

  /** The request could start now without harming any head before it. */
  ghost predicate Startable(x: Context, select: Selector, within: Request -> bool, r: Request,
      heads: seq<Option<Head>>) {
    && within(r) && select(SceneNow(x, r), r).Some?
    && SafeBesideAll(select(SceneNow(x, r), r).value, SaturatingAdd(x.now, r.lifetime), heads)
  }

  /** Admits the first request, in queue order, that can start without harming any blocked
      head ahead of it. */
  method AdmitBackfill(x: Context, select: Selector, within: Request -> bool, queue: seq<Request>)
    returns (choice: Option<seq<Claim>>, heads: seq<Option<Head>>)
    ensures |heads| <= |queue| && (choice.Some? <==> |heads| < |queue|)
    ensures forall j :: 0 <= j < |heads| ==>
              Judged(x, select, within, queue[j], heads[j]) && !Startable(x, select, within, queue[j], heads[..j])
    ensures choice.Some? ==> Startable(x, select, within, queue[|heads|], heads)
                             && choice == select(SceneNow(x, queue[|heads|]), queue[|heads|])
  {
    var used := OccupancyFromLeases(x.leases, x.open, {});
    heads := [];
    for j := 0 to |queue|
      invariant |heads| == j
      invariant forall i :: 0 <= i < j ==>
                  Judged(x, select, within, queue[i], heads[i]) && !Startable(x, select, within, queue[i], heads[..i])
    {
      var r := queue[j];
      var h: Option<Head> := None;
      if within(r) {
        var claims := select(Scene(x.graph, used, x.blocked + Excluded(x, r)), r);
        if claims.Some? {
          if SafeBesideAll(claims.value, SaturatingAdd(x.now, r.lifetime), heads) {
            return claims, heads;
          }
        } else {
          var unblocked := select(Scene(x.graph, used, Excluded(x, r)), r);
          if unblocked.Some? {
            h := Some(Head(None, unblocked.value));
          } else {
            h := ShadowHead(x, select, r);
          }
        }
      }
      assert heads[..j] == heads;
      assert forall i :: 0 <= i < j ==> (heads + [h])[..i] == heads[..i];
      assert (heads + [h])[..j] == heads;
      heads := heads + [h];
    }
    choice := None;
  }

  /* ---------- the protected heads ---------- */

  /** The context once the chosen request is a lease. */
  function WithLease(x: Context, id: LeaseId, lease: Lease): Context {
    x.(leases := x.leases[id := lease])
  }

  ghost predicate FreshRoot(x: Context, id: LeaseId, lease: Lease) {
    LeaseTree(x.leases) && id !in x.leases && id !in x.open && lease.parent.None? && Live(lease.state)
  }

  lemma OccupyingWith(x: Context, id: LeaseId, lease: Lease, except: set<LeaseId>)
    requires FreshRoot(x, id, lease)
    ensures Occupying(x.leases[id := lease], x.open, except) ==
            if id in except then Occupying(x.leases, x.open, except) else Occupying(x.leases, x.open, except) + {id}
    ensures id !in Occupying(x.leases, x.open, except) && Occupying(x.leases, x.open, except) <= x.leases.Keys
  {
  }

  lemma RootsWith(x: Context, id: LeaseId, lease: Lease, occ: set<LeaseId>)
    requires FreshRoot(x, id, lease) && occ <= x.leases.Keys
    ensures Roots(x.leases[id := lease], occ + {id}) == Roots(x.leases, occ) + {id}
    ensures Roots(x.leases[id := lease], occ) == Roots(x.leases, occ)
    ensures id !in Roots(x.leases, occ)
  {
  }

  /** In every projection, the new lease adds its claims and nothing else. */
  lemma ProjectedWith(x: Context, id: LeaseId, lease: Lease, except: set<LeaseId>, n: NodeId, d: Dimension)
    requires FreshRoot(x, id, lease)
    ensures Get(UsedOn(Projected(WithLease(x, id, lease), except), n), d) ==
            Get(UsedOn(Projected(x, except), n), d) + if id in except then 0 else Amount(lease.claims, n, d)
  {
    var occ := Occupying(x.leases, x.open, except);
    var leases', roots := x.leases[id := lease], Roots(x.leases, occ);
    OccupyingWith(x, id, lease, except);
    RootsWith(x, id, lease, occ);
    hide FreshRoot, Occupying, Roots;
    UsedReads(x.leases, roots, n, d);
    UsedReads(leases', roots, n, d);
    UsedReads(leases', roots + {id}, n, d);
    NewUsage(x.leases, id, lease, roots, n, d);
  }

  lemma CoverReadsAmounts(g: Graph, used: Used, used': Used, c: Claim)
    requires CanCover(g, used, c)
    requires forall d :: Get(UsedOn(used', c.node), d) == Get(UsedOn(used, c.node), d)
    ensures CanCover(g, used', c)
  {
  }

  /** What placement guarantees of the claims it returns. */
  ghost predicate Covering(select: Selector) {
    forall s, r :: select(s, r).Some? ==> CoversAll(s.graph, s.used, select(s, r).value)
  }

  /** The new lease is gone at `t` if it finishes by then, and else is charged. */
  lemma DueWith(x: Context, id: LeaseId, lease: Lease, t: nat)
    requires FreshRoot(x, id, lease)
    ensures DueBy(x.leases[id := lease], t) == if lease.expiresAt <= t then DueBy(x.leases, t) + {id}
              else DueBy(x.leases, t)
    ensures id !in DueBy(x.leases, t)
  {
  }

  lemma ExceptUnknown(x: Context, id: LeaseId, except: set<LeaseId>)
    requires id !in x.leases
    ensures Projected(x, except + {id}) == Projected(x, except)
  {
    assert Occupying(x.leases, x.open, except + {id}) == Occupying(x.leases, x.open, except);
  }

  lemma OffClaims(claims: seq<Claim>, n: NodeId, d: Dimension)
    requires n !in ClaimedNodes(claims)
    ensures Amount(claims, n, d) == 0
  {
    assert forall i :: 0 <= i < |claims| ==> claims[i].node in ClaimedNodes(claims);
    AmountOffClaims(claims, n, d);
  }

  /** What a node of the head holds at the head's time does not change. */
  lemma HeadNodeKept(x: Context, id: LeaseId, lease: Lease, h: Head, t: nat, i: nat, d: Dimension)
    requires FreshRoot(x, id, lease) && h.shadow == Some(t) && SafeBeside(lease.claims, lease.expiresAt, h)
             && i < |h.claims|
    ensures var n := h.claims[i].node;
            Get(UsedOn(Projected(WithLease(x, id, lease), DueBy(x.leases[id := lease], t)), n), d) ==
            Get(UsedOn(Projected(x, DueBy(x.leases, t)), n), d)
  {
    var n := h.claims[i].node;
    assert n in ClaimedNodes(h.claims);
    if lease.expiresAt > t {
      OffClaims(lease.claims, n, d);
    }
    DueWith(x, id, lease, t);
    ExceptUnknown(x, id, DueBy(x.leases, t));
    hide FreshRoot, Projected, DueBy;
    ProjectedWith(x, id, lease, DueBy(x.leases[id := lease], t), n, d);
  }

  /** A head with a shadow time still fits its whole shadow allocation at that time, and no
      earlier expiry would have done. */
  lemma HeadStillFits(x: Context, select: Selector, r: Request, h: Head, id: LeaseId, lease: Lease)
    requires Covering(select) && IsHead(x, select, r, Some(h)) && h.shadow.Some?
    requires FreshRoot(x, id, lease) && SafeBeside(lease.claims, lease.expiresAt, h)
    ensures var t := h.shadow.value;
            && x.now < t && t in Times(x)
            && (forall u :: u in Times(x) && u < t ==> select(SceneAt(x, r, u), r).None?)
            && CoversAll(x.graph, Projected(WithLease(x, id, lease), DueBy(x.leases[id := lease], t)), h.claims)
  {
    var t := h.shadow.value;
    assert CoversAll(x.graph, Projected(x, DueBy(x.leases, t)), h.claims);
    forall i | 0 <= i < |h.claims|
      ensures CanCover(x.graph, Projected(WithLease(x, id, lease), DueBy(x.leases[id := lease], t)), h.claims[i])
    {
      hide FreshRoot, Projected, SafeBeside, IsHead, Covering, CanCover;
      forall d
        ensures Get(UsedOn(Projected(WithLease(x, id, lease), DueBy(x.leases[id := lease], t)), h.claims[i].node), d) ==
                Get(UsedOn(Projected(x, DueBy(x.leases, t)), h.claims[i].node), d)
      {
        HeadNodeKept(x, id, lease, h, t, i, d);
      }
      CoverReadsAmounts(x.graph, Projected(x, DueBy(x.leases, t)),
                        Projected(WithLease(x, id, lease), DueBy(x.leases[id := lease], t)), h.claims[i]);
    }
  }

  /** A head without a proven time keeps all its nodes untouched, in every projection. */
  lemma HeadKeepsNodes(x: Context, h: Head, id: LeaseId, lease: Lease, except: set<LeaseId>, i: nat, d: Dimension)
    requires FreshRoot(x, id, lease) && SafeBeside(lease.claims, lease.expiresAt, h) && h.shadow.None? && i < |h.claims|
    ensures Get(UsedOn(Projected(WithLease(x, id, lease), except), h.claims[i].node), d) ==
            Get(UsedOn(Projected(x, except), h.claims[i].node), d)
  {
    assert h.claims[i].node in ClaimedNodes(h.claims);
    OffClaims(lease.claims, h.claims[i].node, d);
    ProjectedWith(x, id, lease, except, h.claims[i].node, d);
  }

  /* ---------- against the kernel ---------- */

  function ContextOf(k: Kernel, excluded: map<nat, set<NodeId>>): Context {
    Context(k.graph, k.leases, OpenLeases(k.bindings), PlacementBlocked(k), k.now, excluded)
  }

  /** Opening the chosen request as a lease that ends at now + lifetime protects every head
      ahead of it: heads with a time still fit at that time in the new state, heads without
      one keep their nodes untouched. */
  lemma OpeningProtects(k: Kernel, excluded: map<nat, set<NodeId>>, select: Selector, within: Request -> bool,
                        queue: seq<Request>, choice: seq<Claim>, heads: seq<Option<Head>>, c: Command, j: nat)
    requires Inv(k) && Covering(select) && j < |heads| < |queue| && heads[j].Some?
    requires Judged(ContextOf(k, excluded), select, within, queue[j], heads[j])
    requires SafeBesideAll(choice, SaturatingAdd(k.now, queue[|heads|].lifetime), heads)
    requires c.OpenLease? && c.lease !in k.leases && c.parent.None? && Open(k, c).Accepted?
    requires Resolve(k.graph, c.claims) == choice && c.expiresAt == SaturatingAdd(k.now, queue[|heads|].lifetime)
    ensures var x, x', h := ContextOf(k, excluded), ContextOf(Open(k, c).k, excluded), heads[j].value;
            && (h.shadow.Some? ==> CoversAll(x'.graph, Projected(x', DueBy(x'.leases, h.shadow.value)), h.claims))
            && (h.shadow.None? ==> forall except, i, d :: 0 <= i < |h.claims| ==>
                  Get(UsedOn(Projected(x', except), h.claims[i].node), d) ==
                    Get(UsedOn(Projected(x, except), h.claims[i].node), d))
  {
    var x, h, lease := ContextOf(k, excluded), heads[j].value, Open(k, c).k.leases[c.lease];
    OpenedContext(k, excluded, c);
    hide Inv, Open, Judged, Projected, CoversAll;
    assert SafeBeside(lease.claims, lease.expiresAt, h);
    if h.shadow.Some? {
      JudgedHead(x, select, within, queue[j], h);
      HeadStillFits(x, select, queue[j], h, c.lease, lease);
    } else {
      forall except, i, d | 0 <= i < |h.claims|
        ensures Get(UsedOn(Projected(WithLease(x, c.lease, lease), except), h.claims[i].node), d) ==
                Get(UsedOn(Projected(x, except), h.claims[i].node), d)
      {
        HeadKeepsNodes(x, h, c.lease, lease, except, i, d);
      }
    }
  }

  lemma JudgedHead(x: Context, select: Selector, within: Request -> bool, r: Request, h: Head)
    requires Judged(x, select, within, r, Some(h))
    ensures IsHead(x, select, r, Some(h))
  {
  }

  lemma OpenedContext(k: Kernel, excluded: map<nat, set<NodeId>>, c: Command)
    requires Inv(k) && c.OpenLease? && c.lease !in k.leases && c.parent.None? && Open(k, c).Accepted?
    ensures c.lease in Open(k, c).k.leases
    ensures var lease := Open(k, c).k.leases[c.lease];
            && lease.claims == Resolve(k.graph, c.claims) && lease.expiresAt == c.expiresAt
            && FreshRoot(ContextOf(k, excluded), c.lease, lease)
            && ContextOf(Open(k, c).k, excluded) == WithLease(ContextOf(k, excluded), c.lease, lease)
  {
    assert c.lease !in OpenLeases(k.bindings);
    assert LeaseTree(k.leases);
    hide Inv, Admissible, CoversAll, LeaseTree;
    assert PlacementBlocked(Open(k, c).k) == PlacementBlocked(k);
  }
}
