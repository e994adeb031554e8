/** Parent maps without cycles. Both the containment hierarchy of the resource
    graph and the delegation tree of leases are walked through such a map. */
module Forest {

  ghost function RankAt(rank: map<nat, nat>, x: nat): nat {
    if x in rank then rank[x] else 0
  }

  ghost predicate IsRank(parent: map<nat, nat>, rank: map<nat, nat>) {
    forall c :: c in parent ==> RankAt(rank, parent[c]) < RankAt(rank, c)
  }

  ghost predicate Acyclic(parent: map<nat, nat>) {
    exists rank :: IsRank(parent, rank)
  }

  type ParentMap = m: map<nat, nat> | Acyclic(m) ghost witness EmptyMap()

  ghost function EmptyMap(): (m: map<nat, nat>)
    ensures m == map[] && Acyclic(m)
  {
    assert IsRank(map[], map[]);
    map[]
  }

  ghost function RankOf(parent: ParentMap): (rank: map<nat, nat>)
    ensures IsRank(parent, rank)
  {
    var rank :| IsRank(parent, rank);
    rank
  }

  /** The proper ancestors of `x`, nearest first. */
  function Ancestors(parent: ParentMap, x: nat): (chain: seq<nat>)
    decreases RankAt(RankOf(parent), x)
  {
    if x in parent then [parent[x]] + Ancestors(parent, parent[x]) else []
  }

  predicate Under(parent: ParentMap, x: nat, a: nat) {
    a in Ancestors(parent, x)
  }

  lemma UnderStep(parent: ParentMap, x: nat, a: nat)
    ensures Under(parent, x, a) <==> x in parent && (parent[x] == a || Under(parent, parent[x], a))
  {
  }

  /** Walking up strictly lowers every rank, so nothing is its own ancestor. */
  lemma {:induction false} RankDrops(parent: ParentMap, x: nat, a: nat)
    requires Under(parent, x, a)
    ensures RankAt(RankOf(parent), a) < RankAt(RankOf(parent), x)
    decreases RankAt(RankOf(parent), x)
  {
    if parent[x] != a {
      RankDrops(parent, parent[x], a);
    }
  }

  lemma NotUnderItself(parent: ParentMap, x: nat)
    ensures !Under(parent, x, x)
  {
    if Under(parent, x, x) {
      RankDrops(parent, x, x);
    }
  }

  lemma {:induction false} UnderTransitive(parent: ParentMap, x: nat, y: nat, z: nat)
    requires Under(parent, x, y) && Under(parent, y, z)
    ensures Under(parent, x, z)
    decreases RankAt(RankOf(parent), x)
  {
    if parent[x] != y {
      UnderTransitive(parent, parent[x], y, z);
    }
  }

  predicate Distinct<T(==)>(s: seq<T>) {
    forall i, j :: 0 <= i < j < |s| ==> s[i] != s[j]
  }

  lemma DistinctConcat<T>(a: seq<T>, b: seq<T>)
    requires Distinct(a) && Distinct(b) && forall x :: x in a ==> x !in b
    ensures Distinct(a + b)
  {
    forall i, j | 0 <= i < j < |a + b|
      ensures (a + b)[i] != (a + b)[j]
    {
      if i < |a| && |a| <= j {
        assert (a + b)[i] in a && (a + b)[j] in b;
      }
    }
  }

  function Elements<T(==)>(s: seq<T>): set<T> {
    set x | x in s
  }

  lemma {:induction false} AncestorsDistinct(parent: ParentMap, x: nat)
    ensures Distinct(Ancestors(parent, x))
    decreases RankAt(RankOf(parent), x)
  {
    if x in parent {
      AncestorsDistinct(parent, parent[x]);
      NotUnderItself(parent, parent[x]);
    }
  }

  /** A fresh leaf below `p` keeps the map acyclic. */
  lemma AddLeaf(parent: map<nat, nat>, x: nat, p: nat)
    requires Acyclic(parent)
    requires x != p && x !in parent && forall c :: c in parent ==> parent[c] != x
    ensures Acyclic(parent[x := p])
  {
    var rank :| IsRank(parent, rank);
    assert IsRank(parent[x := p], rank[x := RankAt(rank, p) + 1]);
  }

  /** Every set that holds the children of `a` and is closed under children holds
      everything under `a`. */
  lemma {:induction false} ClosedHoldsUnder(parent: ParentMap, inside: set<nat>, x: nat, a: nat)
    requires forall c :: c in parent && (parent[c] == a || parent[c] in inside) ==> c in inside
    requires Under(parent, x, a)
    ensures x in inside
    decreases RankAt(RankOf(parent), x)
  {
    if parent[x] != a {
      ClosedHoldsUnder(parent, inside, parent[x], a);
    }
  }
}
