/** What the occupancy sums when leases are left out (crates/kernel/src/occupancy.rs): when a
    projection still fits the capacity and charges every lineage once, exactly. */
module Projections {
  import opened Forest
  import opened Quantities
  import opened ResourceGraph
  import opened Occupancy
  import opened Kernel
  import opened Authority
  import opened Runs

  /** A lease that is left out while a lease below it is kept leaves nothing kept above it. */
  ghost predicate Clean(leases: Leases, occ: set<LeaseId>, except: set<LeaseId>) {
    forall x, c, a ::
      x in occ && x in except && c in occ && c !in except && Below(leases, c, x) && a in occ && Below(leases, x, a) ==>
        a in except
  }

  /** None of the leases was delegated from another of them. */
  ghost predicate Unrelated(leases: Leases, ids: set<LeaseId>) {
    forall x, y :: x in ids && y in ids ==> !Below(leases, x, y)
  }

  /** `r` is charged for the lineage of `l`. */
  ghost predicate ChargedIn(leases: Leases, occ: set<LeaseId>, r: LeaseId, l: LeaseId) {
    r in Roots(leases, occ) && (r == l || Below(leases, l, r))
  }

  /** Every lease that counts has exactly one charged lease in its lineage. */
  ghost predicate ChargesOnce(leases: Leases, occ: set<LeaseId>) {
    forall l :: l in occ ==>
      && (exists r :: ChargedIn(leases, occ, r, l))
      && (forall r, s :: ChargedIn(leases, occ, r, l) && ChargedIn(leases, occ, s, l) ==> r == s)
  }

  /* ---------- walking up a lineage ---------- */

  lemma BelowKnown(leases: Leases, l: LeaseId, a: LeaseId)
    requires LeaseTree(leases) && Below(leases, l, a)
    ensures l in leases && leases[l].parent.Some? && leases[l].parent.value in leases
  {
    UnderStep(LeaseParents(leases), l, a);
  }

  ghost function Depth(leases: Leases, l: LeaseId): nat
    requires LeaseTree(leases)
  {
    |Ancestors(LeaseParents(leases), l)|
  }

  lemma DepthStep(leases: Leases, l: LeaseId)
    requires LeaseTree(leases) && l in leases
    ensures Depth(leases, l) == if leases[l].parent.Some? then Depth(leases, leases[l].parent.value) + 1 else 0
  {
  }

  lemma {:induction false} DepthBelow(leases: Leases, l: LeaseId, a: LeaseId)
    requires LeaseTree(leases) && Below(leases, l, a)
    ensures l in leases && leases[l].parent.Some?
    ensures Depth(leases, l) > Depth(leases, a)
    ensures leases[l].parent.value != a ==> Depth(leases, l) > Depth(leases, a) + 1
    decreases Depth(leases, l)
  {
    BelowKnown(leases, l, a);
    BelowStep(leases, l, a);
    DepthStep(leases, l);
    var p := leases[l].parent.value;
    if p != a {
      DepthBelow(leases, p, a);
    }
  }

  /** The topmost lease of an unbroken stretch of kept leases is charged. */
  lemma {:induction false} SomeCharged(leases: Leases, occ: set<LeaseId>, l: LeaseId) returns (r: LeaseId)
    requires LeaseTree(leases) && l in occ && occ <= leases.Keys
    ensures ChargedIn(leases, occ, r, l)
    decreases Depth(leases, l)
  {
    DepthStep(leases, l);
    if leases[l].parent.Some? && leases[l].parent.value in occ {
      r := SomeCharged(leases, occ, leases[l].parent.value);
      BelowStep(leases, l, r);
    } else {
      r := l;
    }
  }

  /** Below a lease that is left out, something is charged for every kept lease. */
  lemma {:induction false} ChargedBelow(leases: Leases, occ: set<LeaseId>, l: LeaseId, x: LeaseId) returns (r: LeaseId)
    requires LeaseTree(leases) && l in occ && occ <= leases.Keys && x !in occ && Below(leases, l, x)
    ensures ChargedIn(leases, occ, r, l) && Below(leases, r, x)
    decreases Depth(leases, l)
  {
    DepthStep(leases, l);
    BelowStep(leases, l, x);
    var p := leases[l].parent.value;
    if p in occ {
      r := ChargedBelow(leases, occ, p, x);
      BelowStep(leases, l, r);
    } else {
      r := l;
    }
  }

  /* ---------- one charge per lineage ---------- */

  lemma UnrelatedChargesOnce(leases: Leases, occ: set<LeaseId>)
    requires LeaseTree(leases) && occ <= leases.Keys
    ensures Unrelated(leases, Roots(leases, occ)) <==> ChargesOnce(leases, occ)
  {
    if Unrelated(leases, Roots(leases, occ)) {
      forall l | l in occ
        ensures exists r :: ChargedIn(leases, occ, r, l)
        ensures forall r, s :: ChargedIn(leases, occ, r, l) && ChargedIn(leases, occ, s, l) ==> r == s
      {
        var r := SomeCharged(leases, occ, l);
        forall r, s | ChargedIn(leases, occ, r, l) && ChargedIn(leases, occ, s, l)
          ensures r == s
        {
          if r != s {
            LineageIsLine(leases, l, r, s);
          }
        }
      }
    } else {
      var x, y :| x in Roots(leases, occ) && y in Roots(leases, occ) && Below(leases, x, y);
      NotUnderItself(LeaseParents(leases), x);
      assert ChargedIn(leases, occ, x, x) && ChargedIn(leases, occ, y, x);
    }
  }

  lemma CleanIsUnrelated(leases: Leases, occ: set<LeaseId>, except: set<LeaseId>)
    requires LeaseTree(leases) && occ <= leases.Keys && Chained(leases, occ) && Clean(leases, occ, except)
    ensures Unrelated(leases, Roots(leases, occ - except))
  {
    var roots := Roots(leases, occ - except);
    forall s, r | s in roots && r in roots
      ensures !Below(leases, s, r)
    {
      if Below(leases, s, r) {
        BelowStep(leases, s, r);
        var p := leases[s].parent.value;
        assert p !in occ - except && p != r;
        BelowKnown(leases, p, r);
        assert p in occ && p in except;
        BelowStep(leases, s, p);
      }
    }
  }

  lemma UnrelatedIsClean(leases: Leases, occ: set<LeaseId>, except: set<LeaseId>)
    requires LeaseTree(leases) && occ <= leases.Keys && Unrelated(leases, Roots(leases, occ - except))
    ensures Clean(leases, occ, except)
  {
    var kept := occ - except;
    forall x, c, a | x in occ && x in except && c in occ && c !in except && Below(leases, c, x)
                     && a in occ && Below(leases, x, a)
      ensures a in except
    {
      if a !in except {
        var s := ChargedBelow(leases, kept, c, x);
        var r := SomeCharged(leases, kept, a);
        BelowTransitive(leases, s, x, a);
        if r != a {
          BelowTransitive(leases, s, a, r);
        }
      }
    }
  }

  lemma LeftOut(k: Kernel, except: set<LeaseId>)
    ensures OccupyingExcept(k.leases, k.bindings, except) == Occ(k.leases, k.bindings) - except
    ensures Occ(k.leases, k.bindings) <= k.leases.Keys
  {
  }

  /** The exact condition: a projection charges every lineage once if and only if the leases
      left out are clean. */
  lemma ChargesOnceIffClean(k: Kernel, except: set<LeaseId>)
    requires Inv(k)
    ensures ChargesOnce(k.leases, OccupyingExcept(k.leases, k.bindings, except)) <==>
            Clean(k.leases, Occ(k.leases, k.bindings), except)
  {
    var occ := Occ(k.leases, k.bindings);
    LeftOut(k, except);
    assert LeaseTree(k.leases) && Chained(k.leases, occ);
    hide Inv, LeaseTree, Chained, Clean, Unrelated, ChargesOnce;
    UnrelatedChargesOnce(k.leases, occ - except);
    if Clean(k.leases, occ, except) {
      CleanIsUnrelated(k.leases, occ, except);
    }
    if Unrelated(k.leases, Roots(k.leases, occ - except)) {
      UnrelatedIsClean(k.leases, occ, except);
    }
  }

  /** With nothing left out every lineage is charged exactly once: an occupying lease has
      exactly one charged lease among itself and the leases it was delegated from. */
  lemma ChargedExactlyOnce(k: Kernel)
    requires Inv(k)
    ensures ChargesOnce(k.leases, Occ(k.leases, k.bindings))
  {
    hide Inv, Below, ChargesOnce;
    ChargesOnceIffClean(k, {});
  }

  /* ---------- what fits ---------- */

  /** Everything between an occupying lease and an occupying lease above it occupies. */
  lemma ParentOccupies(leases: Leases, occ: set<LeaseId>, l: LeaseId, a: LeaseId)
    requires LeaseTree(leases) && Chained(leases, occ) && l in occ && a in occ && Below(leases, l, a)
    ensures l in leases && leases[l].parent.Some? && leases[l].parent.value in occ
  {
    BelowKnown(leases, l, a);
    BelowStep(leases, l, a);
    var p := leases[l].parent.value;
    if p != a {
      BelowKnown(leases, p, a);
    }
  }

  /** The leases of `ids` delegated from `p` are replaced by `p` itself. */
  ghost function Raised(leases: Leases, occ: set<LeaseId>, ids: set<LeaseId>, p: LeaseId): set<LeaseId> {
    ids - Kids(leases, occ, p) + {p}
  }

  lemma RaisedCostsMore(leases: Leases, occ: set<LeaseId>, ids: set<LeaseId>, p: LeaseId, n: NodeId, d: Dimension)
    requires Shares(leases, occ) && p in leases && p !in ids
    ensures Usage(leases, ids, n, d) <= Usage(leases, Raised(leases, occ, ids, p), n, d)
  {
    var kids := Kids(leases, occ, p);
    var rest := ids - kids;
    UsageUnion(leases, rest, ids * kids, n, d);
    assert rest + ids * kids == ids;
    UsageMonotone(leases, ids * kids, kids, n, d);
    UsageAdd(leases, rest, p, n, d);
  }

  /** At most the charged leases of `ids` lie deeper than `depth`. */
  ghost predicate Shallow(leases: Leases, occ: set<LeaseId>, ids: set<LeaseId>, depth: nat)
    requires LeaseTree(leases)
  {
    forall l :: l in ids && l !in Roots(leases, occ) ==> Depth(leases, l) <= depth
  }

  ghost function AtDepth(leases: Leases, occ: set<LeaseId>, ids: set<LeaseId>, depth: nat): set<LeaseId>
    requires LeaseTree(leases)
  {
    set l | l in ids && l !in Roots(leases, occ) && Depth(leases, l) == depth
  }

  lemma RaisedUnrelated(leases: Leases, occ: set<LeaseId>, ids: set<LeaseId>, l: LeaseId, p: LeaseId)
    requires LeaseTree(leases) && Chained(leases, occ) && ids <= occ <= leases.Keys && Unrelated(leases, ids)
    requires l in ids && leases[l].parent == Some(p) && p in occ && Shallow(leases, occ, ids, Depth(leases, l))
    ensures p !in ids && Unrelated(leases, Raised(leases, occ, ids, p))
  {
    BelowStep(leases, l, p);
    DepthStep(leases, l);
    forall x, y | x in Raised(leases, occ, ids, p) && y in Raised(leases, occ, ids, p)
      ensures !Below(leases, x, y)
    {
      if Below(leases, x, y) {
        if x == p && y == p {
          NotUnderItself(LeaseParents(leases), p);
        } else if x == p {
          BelowStep(leases, l, y);
        } else {
          assert y == p;
          ParentOccupies(leases, occ, x, p);
          DepthBelow(leases, x, p);
        }
      }
    }
  }

  /** However deep they lie, occupying leases none of which was delegated from another use
      no more than the charged leases. */
  lemma {:induction false} UnrelatedUse(leases: Leases, occ: set<LeaseId>, ids: set<LeaseId>, depth: nat,
      n: NodeId, d: Dimension)
    requires LeaseTree(leases) && Chained(leases, occ) && Shares(leases, occ) && ids <= occ <= leases.Keys
    requires Unrelated(leases, ids) && Shallow(leases, occ, ids, depth)
    ensures Usage(leases, ids, n, d) <= Usage(leases, Roots(leases, occ), n, d)
    decreases depth, |AtDepth(leases, occ, ids, depth)|
  {
    if l :| l in AtDepth(leases, occ, ids, depth) {
      DepthStep(leases, l);
      var p := leases[l].parent.value;
      RaisedUnrelated(leases, occ, ids, l, p);
      RaisedCostsMore(leases, occ, ids, p, n, d);
      var raised := Raised(leases, occ, ids, p);
      assert AtDepth(leases, occ, raised, depth) < AtDepth(leases, occ, ids, depth) by {
        assert l in Kids(leases, occ, p);
      }
      SmallerSet(AtDepth(leases, occ, raised, depth), AtDepth(leases, occ, ids, depth));
      UnrelatedUse(leases, occ, raised, depth, n, d);
    } else if depth == 0 {
      assert ids <= Roots(leases, occ);
      UsageMonotone(leases, ids, Roots(leases, occ), n, d);
    } else {
      assert forall l :: l in ids && l !in Roots(leases, occ) ==> l !in AtDepth(leases, occ, ids, depth);
      UnrelatedUse(leases, occ, ids, depth - 1, n, d);
    }
  }

  lemma {:induction false} SmallerSet(a: set<LeaseId>, b: set<LeaseId>)
    requires a < b
    ensures |a| < |b|
    decreases |a|
  {
    var y :| y in b && y !in a;
    if a != {} {
      var x :| x in a;
      assert y in b - {x} && y !in a - {x};
      SmallerSet(a - {x}, b - {x});
    }
  }

  ghost function Deepest(leases: Leases, ids: set<LeaseId>): (depth: nat)
    requires LeaseTree(leases)
    ensures forall l :: l in ids ==> Depth(leases, l) <= depth
    decreases |ids|
  {
    if ids == {} then 0
    else
      var l :| l in ids;
      var rest := Deepest(leases, ids - {l});
      assert ids == (ids - {l}) + {l};
      if Depth(leases, l) < rest then rest else Depth(leases, l)
  }

  lemma UnrelatedFits(k: Kernel, ids: set<LeaseId>, n: NodeId, d: Dimension)
    requires Inv(k) && ids <= Occ(k.leases, k.bindings) && Unrelated(k.leases, ids)
    ensures Usage(k.leases, ids, n, d) <= Get(CapacityOf(k.graph, n), d)
  {
    var occ := Occ(k.leases, k.bindings);
    assert LeaseTree(k.leases) && Chained(k.leases, occ) && Shares(k.leases, occ) && Bounded(k.graph, k.leases, occ);
    LeftOut(k, {});
    hide Inv, LeaseTree, Chained, Shares;
    UnrelatedUse(k.leases, occ, ids, Deepest(k.leases, ids), n, d);
  }

  lemma CleanFits(k: Kernel, except: set<LeaseId>, part: set<LeaseId>, n: NodeId, d: Dimension)
    requires Inv(k) && Clean(k.leases, Occ(k.leases, k.bindings), except)
    requires part <= Roots(k.leases, OccupyingExcept(k.leases, k.bindings, except))
    ensures Usage(k.leases, part, n, d) <= Get(CapacityOf(k.graph, n), d)
  {
    var occ := Occ(k.leases, k.bindings);
    LeftOut(k, except);
    assert LeaseTree(k.leases) && Chained(k.leases, occ);
    hide Inv, LeaseTree, Chained, Clean;
    CleanIsUnrelated(k.leases, occ, except);
    UnrelatedFits(k, part, n, d);
  }

  lemma KidsUnrelated(leases: Leases, occ: set<LeaseId>, p: LeaseId)
    requires LeaseTree(leases) && p in leases
    ensures Unrelated(leases, Kids(leases, occ, p))
  {
    forall x, y | x in Kids(leases, occ, p) && y in Kids(leases, occ, p)
      ensures !Below(leases, x, y)
    {
      BelowStep(leases, x, y);
      BelowStep(leases, y, p);
      if Below(leases, p, y) {
        BelowTransitive(leases, y, p, y);
        NotUnderItself(LeaseParents(leases), y);
      }
      NotUnderItself(LeaseParents(leases), p);
    }
  }

  /** Leaving out one lease is clean where the kernel does so: before it exists, and while it
      is reserved or preparing, since only leases that were active delegate. */
  lemma OneLeftOutIsClean(k: Kernel, id: LeaseId)
    requires Inv(k) && (id in k.leases ==> k.leases[id].state.Reserved? || k.leases[id].state.Preparing?)
    ensures Clean(k.leases, Occ(k.leases, k.bindings), {id})
  {
    assert LeaseTree(k.leases);
    hide Inv;
    if id in k.leases {
      forall c ensures !Below(k.leases, c, id) { NothingDelegated(k.leases, c, id); }
    }
  }

  lemma {:induction false} NothingDelegated(leases: Leases, c: LeaseId, id: LeaseId)
    requires LeaseTree(leases) && id in leases && (leases[id].state.Reserved? || leases[id].state.Preparing?)
    ensures !Below(leases, c, id)
    decreases Depth(leases, c)
  {
    if Below(leases, c, id) {
      BelowKnown(leases, c, id);
      BelowStep(leases, c, id);
      DepthStep(leases, c);
      NothingDelegated(leases, leases[c].parent.value, id);
    }
  }

  /** Leaving out leases together with everything delegated from them is clean. */
  lemma WholeSubtreesAreClean(leases: Leases, occ: set<LeaseId>, except: set<LeaseId>)
    requires forall x, c :: x in except && c in occ && Below(leases, c, x) ==> c in except
    ensures Clean(leases, occ, except)
  {
  }

  /** In every reachable state no sum the loops form passes the capacity, and so none passes
      the largest u64: not over the children of a lease, not over the charged leases with one
      lease left out as the kernel does, and not over any projection that is clean. */
  lemma SumsNeverOverflow(events: seq<Event>, n: NodeId, d: Dimension, part: set<LeaseId>, p: LeaseId,
      except: set<LeaseId>)
    ensures var k := Run(Initial(), events);
            var occ := Occ(k.leases, k.bindings);
            var summed := Roots(k.leases, OccupyingExcept(k.leases, k.bindings, except));
            || (p in k.leases && part <= Kids(k.leases, occ, p))
            || (part <= summed && Clean(k.leases, occ, except))
            || (part <= summed && except == {p} && (p in k.leases ==> k.leases[p].state in {Reserved, Preparing})) ==>
              Usage(k.leases, part, n, d) <= Get(CapacityOf(k.graph, n), d)
  {
    InitialInv();
    RunKeeps(Initial(), events);
    var k := Run(Initial(), events);
    var occ := Occ(k.leases, k.bindings);
    assert LeaseTree(k.leases);
    hide Inv, LeaseTree, Clean, Roots, Unrelated;
    if p in k.leases && part <= Kids(k.leases, occ, p) {
      KidsUnrelated(k.leases, occ, p);
      PartUnrelated(k.leases, Kids(k.leases, occ, p), part);
      UnrelatedFits(k, part, n, d);
    }
    if part <= Roots(k.leases, OccupyingExcept(k.leases, k.bindings, except)) {
      if except == {p} && (p in k.leases ==> k.leases[p].state in {Reserved, Preparing}) {
        OneLeftOutIsClean(k, p);
      }
      if Clean(k.leases, occ, except) {
        CleanFits(k, except, part, n, d);
      }
    }
  }

  lemma PartUnrelated(leases: Leases, ids: set<LeaseId>, part: set<LeaseId>)
    requires Unrelated(leases, ids) && part <= ids
    ensures Unrelated(leases, part)
  {
  }

  /* ---------- and nothing more fits ---------- */

  /** The same delegations, whatever is claimed. */
  ghost predicate SameTree(leases: Leases, leases': Leases) {
    && leases.Keys == leases'.Keys
    && forall l :: l in leases ==> leases'[l].parent == leases[l].parent && leases'[l].state == leases[l].state
  }

  lemma TreeKeeps(leases: Leases, leases': Leases, occ: set<LeaseId>)
    requires SameTree(leases, leases')
    ensures LeaseParents(leases') == LeaseParents(leases) && Roots(leases', occ) == Roots(leases, occ)
    ensures forall p :: Kids(leases', occ, p) == Kids(leases, occ, p)
    ensures LeaseTree(leases) ==> LeaseTree(leases')
    ensures Chained(leases, occ) ==> Chained(leases', occ)
  {
    assert LeaseParents(leases') == LeaseParents(leases);
  }

  /** Every lease of `line` claims the one unit of one node, no other lease claims anything. */
  function Marked(leases: Leases, line: set<LeaseId>): Leases {
    map l | l in leases :: leases[l].(claims := if l in line then [Claim(0, map[COUNT := 1])] else [])
  }

  function OneUnit(): Graph {
    EmptyGraph().(nodes := map[0 := Node(0, MACHINE, map[], map[COUNT := 1])])
  }

  predicate Mark(n: NodeId, d: Dimension) {
    n == 0 && d == COUNT
  }

  lemma MarkedHeld(leases: Leases, line: set<LeaseId>, l: LeaseId, n: NodeId, d: Dimension)
    requires l in leases
    ensures Held(Marked(leases, line), l, n, d) == Amount(Marked(leases, line)[l].claims, n, d)
    ensures Held(Marked(leases, line), l, n, d) == if l in line && Mark(n, d) then 1 else 0
  {
    var claims := Marked(leases, line)[l].claims;
    hide Amount;
    if l in line && n == 0 {
      AmountOfClaim(claims, 0, d);
    } else {
      AmountOffClaims(claims, n, d);
    }
  }

  lemma {:induction false} MarkedUsage(leases: Leases, line: set<LeaseId>, ids: set<LeaseId>, n: NodeId, d: Dimension)
    requires ids <= leases.Keys
    ensures Usage(Marked(leases, line), ids, n, d) == if Mark(n, d) then |ids * line| else 0
    decreases |ids|
  {
    hide Marked, Held, Mark;
    if ids == {} {
      assert ids * line == {};
    } else {
      var l :| l in ids;
      UsageRemove(Marked(leases, line), ids, l, n, d);
      MarkedHeld(leases, line, l, n, d);
      MarkedUsage(leases, line, ids - {l}, n, d);
      hide Usage;
      if l in line {
        assert ids * line == (ids - {l}) * line + {l};
      } else {
        assert ids * line == (ids - {l}) * line;
      }
    }
  }

  lemma AtMostOne(s: set<LeaseId>)
    requires forall x, y :: x in s && y in s ==> x == y
    ensures |s| <= 1
  {
    if x :| x in s {
      assert s == {x};
    }
  }

  ghost function Lineage(leases: Leases, c: LeaseId): set<LeaseId> {
    set l | l in leases && (l == c || Below(leases, c, l))
  }

  /** Of leases none of which was delegated from another, a lineage holds at most one. */
  lemma OneOfLine(leases: Leases, ids: set<LeaseId>, c: LeaseId)
    requires LeaseTree(leases) && Unrelated(leases, ids)
    ensures |ids * Lineage(leases, c)| <= 1
  {
    var both := ids * Lineage(leases, c);
    forall x, y | x in both && y in both
      ensures x == y
    {
      if x != y {
        LineageIsLine(leases, c, x, y);
      }
    }
    AtMostOne(both);
  }

  lemma MarkedAccounts(leases: Leases, occ: set<LeaseId>, c: LeaseId)
    requires LeaseTree(leases) && occ <= leases.Keys && Chained(leases, occ) && c in leases
    ensures Accounted(OneUnit(), Marked(leases, Lineage(leases, c)), occ)
  {
    var line := Lineage(leases, c);
    var leases' := Marked(leases, line);
    TreeKeeps(leases, leases', occ);
    forall p, n, d | p in leases'
      ensures Usage(leases', Kids(leases', occ, p), n, d) <= Amount(leases'[p].claims, n, d)
    {
      var kids := Kids(leases, occ, p);
      KidsUnrelated(leases, occ, p);
      OneOfLine(leases, kids, c);
      MarkedUsage(leases, line, kids, n, d);
      MarkedHeld(leases, line, p, n, d);
      if l :| l in kids * line {
        BelowStep(leases, l, p);
        if l != c {
          BelowTransitive(leases, c, l, p);
        }
      } else {
        assert kids * line == {};
      }
    }
    CleanIsUnrelated(leases, occ, {});
    assert occ - {} == occ;
    forall n, d
      ensures Usage(leases', Roots(leases', occ), n, d) <= Get(CapacityOf(OneUnit(), n), d)
    {
      OneOfLine(leases, Roots(leases, occ), c);
      MarkedUsage(leases, line, Roots(leases, occ), n, d);
    }
  }

  lemma UncleanChargesTwice(leases: Leases, occ: set<LeaseId>, except: set<LeaseId>) returns (s: LeaseId, r: LeaseId)
    requires LeaseTree(leases) && occ <= leases.Keys && !Clean(leases, occ, except)
    ensures s in Roots(leases, occ - except) && r in Roots(leases, occ - except) && Below(leases, s, r) && s != r
  {
    hide Clean, LeaseTree;
    if Unrelated(leases, Roots(leases, occ - except)) {
      UnrelatedIsClean(leases, occ, except);
    }
    s, r :| s in Roots(leases, occ - except) && r in Roots(leases, occ - except) && Below(leases, s, r);
    NotUnderItself(LeaseParents(leases), s);
  }

  lemma TwiceIsTooMuch(leases: Leases, kept: set<LeaseId>, s: LeaseId, r: LeaseId)
    requires kept <= leases.Keys && s in Roots(leases, kept) && r in Roots(leases, kept) && Below(leases, s, r)
             && s != r
    ensures !Bounded(OneUnit(), Marked(leases, Lineage(leases, s)), kept)
  {
    var line, roots := Lineage(leases, s), Roots(leases, kept);
    assert {s, r} <= roots * line;
    assert Roots(Marked(leases, line), kept) == roots;
    hide Below, Usage, Marked, Lineage, Roots;
    MarkedUsage(leases, line, roots, 0, COUNT);
    MonotoneSize({s, r}, roots * line);
    assert Usage(Marked(leases, line), Roots(Marked(leases, line), kept), 0, COUNT)
           > Get(CapacityOf(OneUnit(), 0), COUNT);
  }

  /** If a lineage is charged twice, there are claims for which that passes the capacity. */
  lemma UncleanOvercharges(leases: Leases, occ: set<LeaseId>, except: set<LeaseId>)
    requires LeaseTree(leases) && occ <= leases.Keys && Chained(leases, occ) && !Clean(leases, occ, except)
    ensures exists leases', g ::
              SameTree(leases, leases') && Accounted(g, leases', occ) && !Bounded(g, leases', occ - except)
  {
    hide LeaseTree, Chained, Clean, Accounted, Bounded, Roots, Lineage, Below;
    var s, r := UncleanChargesTwice(leases, occ, except);
    RootsKnown(leases, occ - except, s);
    MarkedAccounts(leases, occ, s);
    TwiceIsTooMuch(leases, occ - except, s, r);
    assert SameTree(leases, Marked(leases, Lineage(leases, s)));
  }

  lemma RootsKnown(leases: Leases, occ: set<LeaseId>, s: LeaseId)
    requires s in Roots(leases, occ)
    ensures s in leases
  {
  }

  lemma MonotoneSize(a: set<LeaseId>, b: set<LeaseId>)
    requires a <= b
    ensures |a| <= |b|
  {
    if a != b {
      SmallerSet(a, b);
    }
  }

  lemma CleanBounds(leases: Leases, occ: set<LeaseId>, except: set<LeaseId>, leases': Leases, g: Graph)
    requires LeaseTree(leases) && occ <= leases.Keys && Clean(leases, occ, except)
    requires SameTree(leases, leases') && Accounted(g, leases', occ)
    ensures Bounded(g, leases', occ - except)
  {
    TreeKeeps(leases, leases', occ);
    CleanSameTree(leases, leases', occ, except);
    hide LeaseTree, Clean, SameTree;
    CleanIsUnrelated(leases', occ, except);
    var roots := Roots(leases', occ - except);
    forall n, d
      ensures Usage(leases', roots, n, d) <= Get(CapacityOf(g, n), d)
    {
      hide Usage, Unrelated, Chained, Shares;
      UnrelatedUse(leases', occ, roots, Deepest(leases', roots), n, d);
    }
  }

  lemma CleanSameTree(leases: Leases, leases': Leases, occ: set<LeaseId>, except: set<LeaseId>)
    requires SameTree(leases, leases') && Clean(leases, occ, except)
    ensures Clean(leases', occ, except) && leases'.Keys == leases.Keys
  {
    TreeKeeps(leases, leases', occ);
    assert forall l, a :: Below(leases', l, a) == Below(leases, l, a);
    hide Below, SameTree;
  }

  /** The exact condition for capacity: leaving leases out of a delegation tree fits the
      capacity whatever is claimed, if and only if they are clean. */
  lemma FitsWhateverIsClaimedIffClean(leases: Leases, occ: set<LeaseId>, except: set<LeaseId>)
    requires LeaseTree(leases) && occ <= leases.Keys && Chained(leases, occ)
    ensures Clean(leases, occ, except) <==>
            forall leases', g :: SameTree(leases, leases') && Accounted(g, leases', occ) ==>
                     Bounded(g, leases', occ - except)
  {
    hide LeaseTree, Chained, Clean, SameTree, Accounted, Bounded;
    if Clean(leases, occ, except) {
      forall leases', g | SameTree(leases, leases') && Accounted(g, leases', occ)
        ensures Bounded(g, leases', occ - except)
      {
        CleanBounds(leases, occ, except, leases', g);
      }
    } else {
      UncleanOvercharges(leases, occ, except);
    }
  }
}
