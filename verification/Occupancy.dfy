/** What leases charge against capacity (crates/kernel/src/occupancy.rs). */
module Occupancy {
  import opened Quantities
  import opened ResourceGraph

  type LeaseId = nat
  type OwnerId = nat

  datatype Claim = Claim(node: NodeId, quantity: Quantity)

  datatype LeaseState = Reserved | Preparing | Active | Released | Expired | Revoked | Failed | Completed

  datatype Lease = Lease(
    owner: OwnerId,
    claims: seq<Claim>,
    revision: nat,
    parent: Option<LeaseId>,
    expiresAt: nat,
    prepareDeadline: nat,
    priority: nat,
    state: LeaseState,
    exitCode: Option<int>)

  type Leases = map<LeaseId, Lease>
  type Used = map<NodeId, Quantity>

  predicate Live(s: LeaseState) {
    s.Reserved? || s.Preparing? || s.Active?
  }

  /** The leases holding capacity: live ones, and ended ones whose bindings are open. */
  function Occupying(leases: Leases, open: set<LeaseId>, except: set<LeaseId>): set<LeaseId> {
    set l | l in leases && l !in except && (Live(leases[l].state) || l in open)
  }

  /** The occupying leases whose parent does not occupy; only these are charged. */
  function Roots(leases: Leases, occ: set<LeaseId>): set<LeaseId> {
    set l | l in occ && l in leases && (leases[l].parent.None? || leases[l].parent.value !in occ)
  }

  function Kids(leases: Leases, occ: set<LeaseId>, p: LeaseId): set<LeaseId> {
    set l | l in occ && l in leases && leases[l].parent == Some(p)
  }

  /* ---------- claims of one lease ---------- */

  /** The claims folded per node, the larger amount winning per dimension. */
  function ClaimsByNode(claims: seq<Claim>): Used {
    if claims == [] then map[]
    else
      var rest := ClaimsByNode(claims[..|claims| - 1]);
      var c := claims[|claims| - 1];
      rest[c.node := Max(UsedOn(rest, c.node), c.quantity)]
  }

  function UsedOn(used: Used, n: NodeId): Quantity {
    if n in used then used[n] else map[]
  }

  function Amount(claims: seq<Claim>, n: NodeId, d: Dimension): nat {
    Get(UsedOn(ClaimsByNode(claims), n), d)
  }

  predicate ClaimsNode(claims: seq<Claim>, n: NodeId) {
    exists i :: 0 <= i < |claims| && claims[i].node == n
  }

  predicate UniqueNodes(claims: seq<Claim>) {
    forall i, j :: 0 <= i < j < |claims| ==> claims[i].node != claims[j].node
  }

  lemma {:induction false} ClaimsByNodeDomain(claims: seq<Claim>)
    ensures forall n :: n in ClaimsByNode(claims) <==> ClaimsNode(claims, n)
  {
    if claims != [] {
      var rest, last := claims[..|claims| - 1], claims[|claims| - 1];
      ClaimsByNodeDomain(rest);
      forall n
        ensures ClaimsNode(claims, n) <==> n == last.node || ClaimsNode(rest, n)
      {
        if ClaimsNode(rest, n) {
          var i :| 0 <= i < |rest| && rest[i].node == n;
          assert claims[i].node == n;
        }
        if ClaimsNode(claims, n) && n != last.node {
          var i :| 0 <= i < |claims| && claims[i].node == n;
          assert rest[i].node == n;
        }
        assert claims[|claims| - 1].node == last.node;
      }
    }
  }

  /** With one claim per node, the fold reads back each claim. */
  lemma {:induction false} AmountOfClaim(claims: seq<Claim>, i: nat, d: Dimension)
    requires UniqueNodes(claims) && i < |claims|
    ensures Amount(claims, claims[i].node, d) == Get(claims[i].quantity, d)
  {
    var rest, last := claims[..|claims| - 1], claims[|claims| - 1];
    ClaimsByNodeDomain(rest);
    if i < |claims| - 1 {
      AmountOfClaim(rest, i, d);
    } else {
      assert !ClaimsNode(rest, last.node);
    }
  }

  lemma AmountOffClaims(claims: seq<Claim>, n: NodeId, d: Dimension)
    requires !ClaimsNode(claims, n)
    ensures Amount(claims, n, d) == 0
  {
    ClaimsByNodeDomain(claims);
  }

  /* ---------- sums over leases ---------- */

  /** What the leases `ids` hold of dimension `d` on node `n`, summed. */
  ghost function Usage(leases: Leases, ids: set<LeaseId>, n: NodeId, d: Dimension): nat
    decreases |ids|
  {
    if ids == {} then 0
    else
      var l :| l in ids;
      (if l in leases then Amount(leases[l].claims, n, d) else 0) + Usage(leases, ids - {l}, n, d)
  }

  ghost function Held(leases: Leases, l: LeaseId, n: NodeId, d: Dimension): nat {
    if l in leases then Amount(leases[l].claims, n, d) else 0
  }

  lemma {:induction false} UsageRemove(leases: Leases, ids: set<LeaseId>, l: LeaseId, n: NodeId, d: Dimension)
    requires l in ids
    ensures Usage(leases, ids, n, d) == Held(leases, l, n, d) + Usage(leases, ids - {l}, n, d)
    decreases |ids|
  {
    var first :| first in ids
      && Usage(leases, ids, n, d) == Held(leases, first, n, d) + Usage(leases, ids - {first}, n, d);
    if first != l {
      UsageRemove(leases, ids - {first}, l, n, d);
      UsageRemove(leases, ids - {l}, first, n, d);
      assert ids - {first} - {l} == ids - {l} - {first};
    }
  }

  lemma {:induction false} UsageMonotone(leases: Leases, small: set<LeaseId>, large: set<LeaseId>, n: NodeId,
      d: Dimension)
    requires small <= large
    ensures Usage(leases, small, n, d) <= Usage(leases, large, n, d)
    decreases |small|
  {
    if small != {} {
      var l :| l in small;
      UsageRemove(leases, small, l, n, d);
      UsageRemove(leases, large, l, n, d);
      UsageMonotone(leases, small - {l}, large - {l}, n, d);
    }
  }

  lemma {:induction false} UsageUnion(leases: Leases, a: set<LeaseId>, b: set<LeaseId>, n: NodeId, d: Dimension)
    ensures Usage(leases, a + b, n, d) <= Usage(leases, a, n, d) + Usage(leases, b, n, d)
    decreases |a|
  {
    if a == {} {
      assert a + b == b;
    } else {
      var l :| l in a;
      UsageRemove(leases, a, l, n, d);
      UsageUnion(leases, a - {l}, b, n, d);
      if l in b {
        assert a - {l} + b == a + b;
      } else {
        UsageRemove(leases, a + b, l, n, d);
        assert a + b - {l} == a - {l} + b;
      }
    }
  }

  lemma {:induction false} UsageSame(leases: Leases, leases': Leases, ids: set<LeaseId>, n: NodeId, d: Dimension)
    requires forall l :: l in ids ==> Held(leases, l, n, d) == Held(leases', l, n, d)
    ensures Usage(leases, ids, n, d) == Usage(leases', ids, n, d)
    decreases |ids|
  {
    if ids != {} {
      var l :| l in ids;
      UsageRemove(leases, ids, l, n, d);
      UsageRemove(leases', ids, l, n, d);
      UsageSame(leases, leases', ids - {l}, n, d);
    }
  }

  /* ---------- the occupancy map ---------- */

  ghost function NodesOf(leases: Leases, l: LeaseId): set<NodeId> {
    if l in leases then ClaimsByNode(leases[l].claims).Keys else {}
  }

  ghost function DimsOf(leases: Leases, l: LeaseId, n: NodeId): set<Dimension> {
    if l in leases then UsedOn(ClaimsByNode(leases[l].claims), n).Keys else {}
  }

  ghost function UsedNodes(leases: Leases, ids: set<LeaseId>): set<NodeId> {
    set l, n | l in ids && n in NodesOf(leases, l) :: n
  }

  ghost function UsedDims(leases: Leases, ids: set<LeaseId>, n: NodeId): set<Dimension> {
    set l, d | l in ids && d in DimsOf(leases, l, n) :: d
  }

  ghost function UsageOn(leases: Leases, ids: set<LeaseId>, n: NodeId): Quantity {
    map d | d in UsedDims(leases, ids, n) :: Usage(leases, ids, n, d)
  }

  /** The occupancy map: per claimed node, the summed claims of the leases `ids`. */
  ghost function UsedBy(leases: Leases, ids: set<LeaseId>): Used {
    map n | n in UsedNodes(leases, ids) :: UsageOn(leases, ids, n)
  }

  /** Reading the map at any node and dimension gives the sum. */
  lemma {:induction false} UsedReads(leases: Leases, ids: set<LeaseId>, n: NodeId, d: Dimension)
    ensures Get(UsedOn(UsedBy(leases, ids), n), d) == Usage(leases, ids, n, d)
    decreases |ids|
  {
    if Get(UsedOn(UsedBy(leases, ids), n), d) != Usage(leases, ids, n, d) {
      UsageOfNone(leases, ids, n, d);
    }
  }

  lemma {:induction false} UsageOfNone(leases: Leases, ids: set<LeaseId>, n: NodeId, d: Dimension)
    requires forall l :: l in ids ==> n !in NodesOf(leases, l) || d !in DimsOf(leases, l, n)
    ensures Usage(leases, ids, n, d) == 0
    decreases |ids|
  {
    if ids != {} {
      var l :| l in ids;
      UsageRemove(leases, ids, l, n, d);
      UsageOfNone(leases, ids - {l}, n, d);
    }
  }

  /* ---------- the accumulating loops ---------- */

  method FoldClaims(claims: seq<Claim>) returns (out: Used)
    ensures out == ClaimsByNode(claims)
  {
    out := map[];
    for i := 0 to |claims|
      invariant out == ClaimsByNode(claims[..i])
    {
      assert claims[..i + 1][..i] == claims[..i];
      var held := Maximum(UsedOn(out, claims[i].node), claims[i].quantity);
      out := out[claims[i].node := held];
    }
    assert claims[..|claims|] == claims;
  }

  lemma UsageAdd(leases: Leases, ids: set<LeaseId>, l: LeaseId, n: NodeId, d: Dimension)
    requires l !in ids
    ensures Usage(leases, ids + {l}, n, d) == Held(leases, l, n, d) + Usage(leases, ids, n, d)
  {
    UsageRemove(leases, ids + {l}, l, n, d);
    assert ids + {l} - {l} == ids;
  }

  lemma UsedDimsAdd(leases: Leases, ids: set<LeaseId>, l: LeaseId, n: NodeId)
    ensures UsedDims(leases, ids + {l}, n) == UsedDims(leases, ids, n) + DimsOf(leases, l, n)
  {
  }

  /** One lease more: on every node its claims add to what is there. */
  lemma UsageOnStep(leases: Leases, ids: set<LeaseId>, l: LeaseId, n: NodeId)
    requires l in leases && l !in ids
    ensures UsageOn(leases, ids + {l}, n) ==
            Add(UsedOn(UsedBy(leases, ids), n), UsedOn(ClaimsByNode(leases[l].claims), n))
  {
    var before, mine := UsedOn(UsedBy(leases, ids), n), UsedOn(ClaimsByNode(leases[l].claims), n);
    var after := UsageOn(leases, ids + {l}, n);
    UsedOnKeys(leases, ids, n);
    UsedDimsAdd(leases, ids, l, n);
    assert after.Keys == before.Keys + mine.Keys;
    forall d | d in after
      ensures after[d] == Get(before, d) + Get(mine, d)
    {
      UsageAdd(leases, ids, l, n, d);
      UsedReads(leases, ids, n, d);
    }
    IsSum(after, before, mine);
  }

  lemma IsSum(sum: Quantity, left: Quantity, right: Quantity)
    requires sum.Keys == left.Keys + right.Keys
    requires forall d :: d in sum ==> sum[d] == Get(left, d) + Get(right, d)
    ensures sum == Add(left, right)
  {
  }

  lemma UsedNodesAdd(leases: Leases, ids: set<LeaseId>, l: LeaseId)
    ensures UsedNodes(leases, ids + {l}) == UsedNodes(leases, ids) + NodesOf(leases, l)
  {
  }

  lemma UsedByStep(leases: Leases, ids: set<LeaseId>, l: LeaseId, after: Used)
    requires l in leases && l !in ids
    requires after.Keys == UsedBy(leases, ids).Keys + NodesOf(leases, l)
    requires forall n :: n in after ==>
               after[n] == Add(UsedOn(UsedBy(leases, ids), n), UsedOn(ClaimsByNode(leases[l].claims), n))
    ensures after == UsedBy(leases, ids + {l})
  {
    UsedNodesAdd(leases, ids, l);
    hide UsedNodes, NodesOf;
    forall n | n in after
      ensures after[n] == UsageOn(leases, ids + {l}, n)
    {
      UsageOnStep(leases, ids, l, n);
    }
    hide UsageOn, UsedOn, Add;
  }

  lemma AddNothing(q: Quantity)
    ensures Add(q, map[]) == q
  {
  }

  lemma UsedOnKeys(leases: Leases, ids: set<LeaseId>, n: NodeId)
    ensures UsedOn(UsedBy(leases, ids), n).Keys == UsedDims(leases, ids, n)
  {
    if n !in UsedNodes(leases, ids) {
      assert forall l :: l in ids ==> n !in NodesOf(leases, l);
      assert UsedDims(leases, ids, n) == {};
    }
  }

  method AddClaims(before: Used, claims: Used) returns (used: Used)
    ensures used.Keys == before.Keys + claims.Keys
    ensures forall n :: n in used ==> used[n] == Add(UsedOn(before, n), UsedOn(claims, n))
  {
    used := before;
    var nodes := claims.Keys;
    while nodes != {}
      invariant nodes <= claims.Keys
      invariant used.Keys == before.Keys + (claims.Keys - nodes)
      invariant forall n :: n in used ==>
                  used[n] == (if n in claims && n !in nodes then Add(UsedOn(before, n), claims[n]) else before[n])
    {
      var n :| n in nodes;
      var sum := AddAssign(UsedOn(used, n), claims[n]);
      used := used[n := sum];
      nodes := nodes - {n};
    }
    forall n | n in used
      ensures used[n] == Add(UsedOn(before, n), UsedOn(claims, n))
    {
      AddNothing(UsedOn(before, n));
    }
  }

  method Accumulate(leases: Leases, ids: set<LeaseId>) returns (used: Used)
    requires ids <= leases.Keys
    ensures used == UsedBy(leases, ids)
  {
    used := map[];
    var todo := ids;
    ghost var done: set<LeaseId> := {};
    assert UsedNodes(leases, {}) == {};
    while todo != {}
      invariant todo <= ids && done == ids - todo
      invariant used == UsedBy(leases, done)
    {
      var l :| l in todo;
      var before := used;
      var claims := FoldClaims(leases[l].claims);
      used := AddClaims(before, claims);
      UsedByStep(leases, done, l, used);
      todo := todo - {l};
      done := done + {l};
    }
    assert done == ids;
  }

  method OccupancyFromLeases(leases: Leases, open: set<LeaseId>, except: set<LeaseId>) returns (used: Used)
    ensures used == UsedBy(leases, Roots(leases, Occupying(leases, open, except)))
  {
    var occ := Occupying(leases, open, except);
    used := Accumulate(leases, Roots(leases, occ));
  }

  /** Occupancy of the live direct children of `parent`, leaving out `except`. */
  method SubtreeUsed(leases: Leases, open: set<LeaseId>, parent: LeaseId, except: LeaseId) returns (used: Used)
    ensures used == UsedBy(leases, Kids(leases, Occupying(leases, open, {except}), parent))
  {
    used := Accumulate(leases, Kids(leases, Occupying(leases, open, {except}), parent));
  }
}
