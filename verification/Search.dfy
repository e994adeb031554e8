/** The per-machine backtracking search (`MachineSearch` in crates/kernel/src/select.rs):
    it restores what it touched when it fails, finds only solutions, and unless its budget
    ran out it fails only when there is none. */
module Search {
  import opened Forest
  import opened Quantities
  import opened ResourceGraph
  import opened Occupancy
  import opened Kernel
  import opened Placement

  /* ---------- a group in ranked order ---------- */

  /** The claims of `group` stand on ranked nodes at increasing positions from `start`. */
  ghost predicate InOrder(ranked: seq<NodeId>, start: nat, group: seq<Claim>)
    decreases |group|
  {
    group == [] || exists p :: start <= p < |ranked| && ranked[p] == group[0].node && InOrder(ranked, p + 1, group[1..])
  }

  /** Skipping a position the group does not begin with loses nothing. */
  lemma SkipPosition(ranked: seq<NodeId>, start: nat, group: seq<Claim>)
    requires InOrder(ranked, start, group) && group != []
    requires start < |ranked| ==> !(ranked[start] == group[0].node && InOrder(ranked, start + 1, group[1..]))
    ensures start < |ranked| && InOrder(ranked, start + 1, group)
  {
  }

  function NodesIn(group: seq<Claim>): seq<NodeId> {
    seq(|group|, i requires 0 <= i < |group| => group[i].node)
  }

  /** The wanted nodes, in ranked order, from `start` on. */
  ghost function Arrange(ranked: seq<NodeId>, start: nat, wanted: set<NodeId>, unit: Quantity): seq<Claim>
    requires start <= |ranked|
    decreases |ranked| - start
  {
    if start == |ranked| then []
    else if ranked[start] in wanted then [Claim(ranked[start], unit)] + Arrange(ranked, start + 1, wanted, unit)
    else Arrange(ranked, start + 1, wanted, unit)
  }

  lemma {:induction false} ArrangeInOrder(ranked: seq<NodeId>, start: nat, wanted: set<NodeId>, unit: Quantity)
    requires start <= |ranked|
    ensures InOrder(ranked, start, Arrange(ranked, start, wanted, unit))
    decreases |ranked| - start
  {
    if start < |ranked| {
      ArrangeInOrder(ranked, start + 1, wanted, unit);
      var rest := Arrange(ranked, start + 1, wanted, unit);
      if ranked[start] in wanted {
        assert ([Claim(ranked[start], unit)] + rest)[1..] == rest;
      } else if rest != [] {
        var p :| start + 1 <= p < |ranked| && ranked[p] == rest[0].node && InOrder(ranked, p + 1, rest[1..]);
      }
    }
  }

  lemma {:induction false} ArrangeHolds(ranked: seq<NodeId>, start: nat, wanted: set<NodeId>, unit: Quantity)
    requires start <= |ranked| && Distinct(ranked)
    ensures var out := Arrange(ranked, start, wanted, unit);
            && (forall i :: 0 <= i < |out| ==>
                out[i].quantity == unit && out[i].node in ranked[start..] && out[i].node in wanted)
            && Distinct(NodesIn(out))
            && (forall n :: n in ranked[start..] && n in wanted ==> n in NodesIn(out))
    decreases |ranked| - start
  {
    if start < |ranked| {
      ArrangeHolds(ranked, start + 1, wanted, unit);
      var rest, out := Arrange(ranked, start + 1, wanted, unit), Arrange(ranked, start, wanted, unit);
      assert ranked[start..] == [ranked[start]] + ranked[start + 1..];
      assert ranked[start] !in ranked[start + 1..];
      if ranked[start] in wanted {
        assert NodesIn(out) == [ranked[start]] + NodesIn(rest);
      }
    }
  }

  lemma {:induction false} DistinctCount(s: seq<NodeId>)
    requires Distinct(s)
    ensures |Elements(s)| == |s|
  {
    if s != [] {
      var rest, last := s[..|s| - 1], s[|s| - 1];
      DistinctCount(rest);
      assert s == rest + [last];
      assert Elements(s) == Elements(rest) + {last};
    }
  }

  /** Two duplicate-free lists with the same elements are equally long. */
  lemma SameLength(a: seq<NodeId>, b: seq<NodeId>)
    requires Distinct(a) && Distinct(b) && forall n :: n in a <==> n in b
    ensures |a| == |b|
  {
    DistinctCount(a);
    DistinctCount(b);
    assert Elements(a) == Elements(b);
  }

  ghost predicate SameNodes(a: seq<Claim>, b: seq<Claim>) {
    forall n :: n in NodesIn(a) <==> n in NodesIn(b)
  }

  /** Any group over ranked nodes can be reordered to follow the ranking. */
  lemma Reorder(ranked: seq<NodeId>, group: seq<Claim>, unit: Quantity) returns (out: seq<Claim>)
    requires Distinct(ranked) && UniqueNodes(group)
    requires forall i :: 0 <= i < |group| ==> group[i].quantity == unit && group[i].node in ranked
    ensures InOrder(ranked, 0, out) && |out| == |group| && SameNodes(out, group) && UniqueNodes(out)
    ensures forall i :: 0 <= i < |out| ==> out[i].quantity == unit
  {
    var wanted := Elements(NodesIn(group));
    out := Arrange(ranked, 0, wanted, unit);
    ArrangeInOrder(ranked, 0, wanted, unit);
    ArrangeHolds(ranked, 0, wanted, unit);
    assert ranked[0..] == ranked;
    UniqueIffDistinct(group);
    assert forall n :: n in NodesIn(out) <==> n in NodesIn(group) by {
      forall n | n in NodesIn(out) ensures n in NodesIn(group) { assert n in wanted; }
      forall n | n in NodesIn(group) ensures n in NodesIn(out) {
        var i :| 0 <= i < |NodesIn(group)| && NodesIn(group)[i] == n;
        assert group[i].node in ranked;
      }
    }
    SameLength(NodesIn(out), NodesIn(group));
    UniqueIffDistinct(out);
  }

  lemma UniqueIffDistinct(group: seq<Claim>)
    ensures Distinct(NodesIn(group)) <==> UniqueNodes(group)
  {
    forall i, j | 0 <= i < j < |group|
      ensures NodesIn(group)[i] != NodesIn(group)[j] <==> group[i].node != group[j].node
    {
    }
    if Distinct(NodesIn(group)) {
      forall i, j | 0 <= i < j < |group|
        ensures group[i].node != group[j].node
      {
        assert NodesIn(group)[i] != NodesIn(group)[j];
      }
    }
  }

  /** Reordering one group of a solution gives a solution. */
  lemma ReorderedSolution(s: Scene, allowed: set<NodeId>, r: Request, sol: Groups, index: nat, group: seq<Claim>)
    requires Solution(s, allowed, r, sol) && index < |sol|
    requires |group| == |sol[index]| && SameNodes(group, sol[index]) && UniqueNodes(group)
    requires forall i :: 0 <= i < |group| ==> group[i].quantity == Unit(r.needs[index])
    ensures Solution(s, allowed, r, sol[index := group])
  {
    var sol' := sol[index := group];
    assert GroupMeets(s, allowed, r.needs[index], group) by {
      forall i | 0 <= i < |group|
        ensures GoodClaim(s, allowed, r.needs[index], group[i])
      {
        var j := Twin(group, sol[index], i);
        assert GoodClaim(s, allowed, r.needs[index], sol[index][j]);
      }
    }
    hide GroupMeets;
    ReorderedTopology(s.graph, r.topology, sol, index, group);
  }

  lemma Twin(a: seq<Claim>, b: seq<Claim>, i: nat) returns (j: nat)
    requires SameNodes(a, b) && i < |a|
    ensures j < |b| && b[j].node == a[i].node
  {
    assert NodesIn(a)[i] in NodesIn(b);
    j :| 0 <= j < |NodesIn(b)| && NodesIn(b)[j] == a[i].node;
  }

  lemma ReorderedTopology(g: Graph, topology: seq<Constraint>, sol: Groups, index: nat, group: seq<Claim>)
    requires TopologyHolds(g, topology, sol) && index < |sol| && SameNodes(group, sol[index]) && UniqueNodes(group)
    ensures TopologyHolds(g, topology, sol[index := group])
  {
    var sol' := sol[index := group];
    forall h, k | 0 <= h < k < |sol'|
      ensures Apart(sol'[h], sol'[k])
    {
      assert Apart(sol[h], sol[k]);
      StillApart(sol[h], sol[k], sol'[h], sol'[k]);
    }
    forall t | 0 <= t < |topology| && topology[t].left < |sol'| && topology[t].right < |sol'|
      ensures PairsSatisfy(g, sol'[topology[t].left], sol'[topology[t].right], topology[t].relation)
    {
      var l, q := topology[t].left, topology[t].right;
      StillSatisfied(g, sol[l], sol[q], sol'[l], sol'[q], topology[t].relation);
    }
  }

  lemma StillApart(a: seq<Claim>, b: seq<Claim>, a': seq<Claim>, b': seq<Claim>)
    requires Apart(a, b) && SameNodes(a', a) && SameNodes(b', b)
    ensures Apart(a', b')
  {
    forall i, j | 0 <= i < |a'| && 0 <= j < |b'|
      ensures a'[i].node != b'[j].node
    {
      var x := Twin(a', a, i);
      var y := Twin(b', b, j);
    }
  }

  lemma StillSatisfied(g: Graph, a: seq<Claim>, b: seq<Claim>, a': seq<Claim>, b': seq<Claim>, relation: Relation)
    requires PairsSatisfy(g, a, b, relation) && SameNodes(a', a) && SameNodes(b', b)
    ensures PairsSatisfy(g, a', b', relation)
  {
    hide Satisfies;
    forall i, j | 0 <= i < |a'| && 0 <= j < |b'|
      ensures Satisfies(g, a'[i].node, b'[j].node, relation)
    {
      var x := Twin(a', a, i);
      var y := Twin(b', b, j);
      assert Satisfies(g, a[x].node, b[y].node, relation);
    }
  }

  /* ---------- what a failed search rules out ---------- */

  /** No solution begins with these groups. */
  ghost predicate NoneExtends(s: Scene, allowed: set<NodeId>, r: Request, prefix: Groups) {
    forall sol: Groups :: Solution(s, allowed, r, sol) ==> !(prefix <= sol)
  }

  /** No solution begins with these groups and gives the next need the claims `chosen`
      followed by claims at increasing ranked positions from `start`. */
  ghost predicate NoneContinues(s: Scene, allowed: set<NodeId>, r: Request, prefix: Groups, chosen: seq<Claim>,
                                ranked: seq<NodeId>, start: nat)
  {
    forall sol: Groups ::
      Solution(s, allowed, r, sol) && |prefix| < |sol| && prefix <= sol && chosen <= sol[|prefix|] ==>
      !InOrder(ranked, start, sol[|prefix|][|chosen|..])
  }

  /** Every solution has one that agrees before need `index` and follows the ranking there. */
  lemma InOrderTwin(s: Scene, allowed: set<NodeId>, r: Request, sol: Groups, index: nat, ranked: seq<NodeId>)
    returns (twin: Groups)
    requires Solution(s, allowed, r, sol) && index < |sol| && Distinct(ranked)
    requires forall n :: n in ranked <==> n in allowed && Candidate(s, r.needs[index], n)
    ensures Solution(s, allowed, r, twin) && |twin| == |sol| && twin[..index] == sol[..index]
    ensures InOrder(ranked, 0, twin[index][0..])
  {
    var group, unit := sol[index], Unit(r.needs[index]);
    assert GroupMeets(s, allowed, r.needs[index], group);
    forall i | 0 <= i < |group|
      ensures group[i].quantity == unit && group[i].node in ranked
    {
      assert GoodClaim(s, allowed, r.needs[index], group[i]);
    }
    var out := Reorder(ranked, group, unit);
    ReorderedSolution(s, allowed, r, sol, index, out);
    twin := sol[index := out];
    assert twin[index][0..] == out;
  }

  /** Searching every in-order group of a need searches every group. */
  lemma GroupsCovered(s: Scene, allowed: set<NodeId>, r: Request, prefix: Groups, ranked: seq<NodeId>)
    requires |prefix| < |r.needs| && Distinct(ranked)
    requires forall n :: n in ranked <==> n in allowed && Candidate(s, r.needs[|prefix|], n)
    requires NoneContinues(s, allowed, r, prefix, [], ranked, 0)
    ensures NoneExtends(s, allowed, r, prefix)
  {
    forall sol: Groups | Solution(s, allowed, r, sol)
      ensures !(prefix <= sol)
    {
      var twin := InOrderTwin(s, allowed, r, sol, |prefix|, ranked);
      hide Solution, Candidate, InOrder;
      assert prefix == sol[..|prefix|] ==> prefix <= twin;
    }
  }

  lemma NextClaim(s: Scene, allowed: set<NodeId>, r: Request, sol: Groups, index: nat, chosen: seq<Claim>)
    requires Solution(s, allowed, r, sol) && index < |sol| && chosen <= sol[index]
             && |chosen| < GroupSize(r.needs[index])
    ensures var rest := sol[index][|chosen|..];
            && rest != [] && rest[0].quantity == Unit(r.needs[index])
            && chosen + [rest[0]] <= sol[index] && sol[index][|chosen| + 1..] == rest[1..]
  {
  }

  /** One position of a group has been tried in vain. */
  lemma PositionFails(s: Scene, allowed: set<NodeId>, r: Request, prefix: Groups, chosen: seq<Claim>,
                      ranked: seq<NodeId>, p: nat)
    requires |prefix| < |r.needs| && |chosen| < GroupSize(r.needs[|prefix|]) && p < |ranked|
    requires NoneContinues(s, allowed, r, prefix, chosen + [Claim(ranked[p], Unit(r.needs[|prefix|]))], ranked, p + 1)
    requires NoneContinues(s, allowed, r, prefix, chosen, ranked, p + 1)
    ensures NoneContinues(s, allowed, r, prefix, chosen, ranked, p)
  {
    forall sol: Groups | Solution(s, allowed, r, sol) && |prefix| < |sol| && prefix <= sol && chosen <= sol[|prefix|]
      ensures !InOrder(ranked, p, sol[|prefix|][|chosen|..])
    {
      NextClaim(s, allowed, r, sol, |prefix|, chosen);
      hide Solution, Unit, GroupSize;
      var rest := sol[|prefix|][|chosen|..];
      if InOrder(ranked, p, rest) && !(ranked[p] == rest[0].node && InOrder(ranked, p + 1, rest[1..])) {
        SkipPosition(ranked, p, rest);
      }
      hide InOrder;
    }
  }

  /** With no positions left, nothing continues an incomplete group. */
  lemma PositionsExhausted(s: Scene, allowed: set<NodeId>, r: Request, prefix: Groups, chosen: seq<Claim>,
      ranked: seq<NodeId>)
    requires |prefix| < |r.needs| && |chosen| < GroupSize(r.needs[|prefix|])
    ensures NoneContinues(s, allowed, r, prefix, chosen, ranked, |ranked|)
  {
  }

  /** The partial assignment while need `|prefix|` is being filled. */
  ghost function Partial(prefix: Groups, chosen: seq<Claim>, n: nat): Groups
    requires |prefix| < n
  {
    prefix + [chosen] + seq(n - |prefix| - 1, _ => [])
  }

  /** A partial assignment that breaks uniqueness or topology has no solution above it. */
  lemma BrokenHasNoSolution(s: Scene, allowed: set<NodeId>, r: Request, prefix: Groups, chosen: seq<Claim>,
                            ranked: seq<NodeId>, start: nat)
    requires |prefix| < |r.needs|
    requires !TopologyHolds(s.graph, r.topology, Partial(prefix, chosen, |r.needs|))
    ensures NoneContinues(s, allowed, r, prefix, chosen, ranked, start)
  {
    forall sol: Groups | Solution(s, allowed, r, sol) && |prefix| < |sol| && prefix <= sol && chosen <= sol[|prefix|]
      ensures false
    {
      hide TopologyHolds, GroupMeets;
      PartialIsPart(prefix, chosen, sol);
      PartHolds(s.graph, r.topology, Partial(prefix, chosen, |r.needs|), sol);
    }
  }

  lemma PartialIsPart(prefix: Groups, chosen: seq<Claim>, sol: Groups)
    requires |prefix| < |sol| && prefix <= sol && chosen <= sol[|prefix|]
    ensures PartOf(Partial(prefix, chosen, |sol|), sol)
  {
    var part := Partial(prefix, chosen, |sol|);
    assert forall g :: 0 <= g < |prefix| ==> part[g] == prefix[g] == sol[g];
  }

  lemma FullMeans(s: Scene, allowed: set<NodeId>, r: Request, sol: Groups, prefix: Groups, chosen: seq<Claim>)
    requires Solution(s, allowed, r, sol) && |prefix| < |sol| && prefix <= sol && chosen <= sol[|prefix|]
    requires |chosen| == GroupSize(r.needs[|prefix|])
    ensures prefix + [chosen] <= sol
  {
    assert GroupMeets(s, allowed, r.needs[|prefix|], sol[|prefix|]);
    assert sol[|prefix|] == chosen;
    assert sol[..|prefix| + 1] == prefix + [chosen];
  }

  /** A full group continues exactly as the next needs do. */
  lemma FullGroup(s: Scene, allowed: set<NodeId>, r: Request, prefix: Groups, chosen: seq<Claim>,
      ranked: seq<NodeId>, start: nat)
    requires |prefix| < |r.needs| && |chosen| == GroupSize(r.needs[|prefix|])
    requires NoneExtends(s, allowed, r, prefix + [chosen])
    ensures NoneContinues(s, allowed, r, prefix, chosen, ranked, start)
  {
    forall sol: Groups | Solution(s, allowed, r, sol) && |prefix| < |sol| && prefix <= sol && chosen <= sol[|prefix|]
      ensures false
    {
      FullMeans(s, allowed, r, sol, prefix, chosen);
    }
  }

  /* ---------- the checks as the code runs them ---------- */

  method CheckUnique(picked: Groups) returns (unique: bool)
    ensures unique <==> ClaimsUnique(picked)
  {
    var seen: set<NodeId> := {};
    for g := 0 to |picked|
      invariant ClaimsUnique(picked[..g])
      invariant forall n :: n in seen <==> exists h :: 0 <= h < g && ClaimsNode(picked[h], n)
    {
      for i := 0 to |picked[g]|
        invariant UniqueNodes(picked[g][..i])
        invariant forall h :: 0 <= h < g ==> Apart(picked[h], picked[g][..i])
        invariant forall n :: n in seen <==>
                    (exists h :: 0 <= h < g && ClaimsNode(picked[h], n)) || ClaimsNode(picked[g][..i], n)
      {
        var n := picked[g][i].node;
        if n in seen {
          SeenTwice(picked, g, i);
          return false;
        }
        SeenAdd(picked, g, i);
        seen := seen + {n};
      }
      assert picked[g][..|picked[g]|] == picked[g];
      NextUnique(picked, g);
    }
    assert picked[..|picked|] == picked;
    return true;
  }

  lemma SeenTwice(picked: Groups, g: nat, i: nat)
    requires g < |picked| && i < |picked[g]|
    requires || (exists h :: 0 <= h < g && ClaimsNode(picked[h], picked[g][i].node))
             || ClaimsNode(picked[g][..i], picked[g][i].node)
    ensures !ClaimsUnique(picked)
  {
  }

  lemma SeenAdd(picked: Groups, g: nat, i: nat)
    requires g < |picked| && i < |picked[g]|
    requires UniqueNodes(picked[g][..i]) && !ClaimsNode(picked[g][..i], picked[g][i].node)
    requires forall h :: 0 <= h < g ==> Apart(picked[h], picked[g][..i]) && !ClaimsNode(picked[h], picked[g][i].node)
    ensures UniqueNodes(picked[g][..i + 1])
    ensures forall h :: 0 <= h < g ==> Apart(picked[h], picked[g][..i + 1])
    ensures forall n :: ClaimsNode(picked[g][..i + 1], n) <==> ClaimsNode(picked[g][..i], n) || n == picked[g][i].node
  {
  }

  lemma NextUnique(picked: Groups, g: nat)
    requires g < |picked| && ClaimsUnique(picked[..g]) && UniqueNodes(picked[g])
    requires forall h :: 0 <= h < g ==> Apart(picked[h], picked[g])
    ensures ClaimsUnique(picked[..g + 1])
  {
  }

  method CheckTopology(g: Graph, topology: seq<Constraint>, picked: Groups) returns (holds: bool)
    ensures holds <==> TopologyHolds(g, topology, picked)
  {
    holds := CheckUnique(picked);
    if holds {
      holds := ConstraintsHold(g, topology, picked);
    }
  }

  /* ---------- the search ---------- */

  /** The first `index` needs are met, the rest untouched, and nothing is broken yet. */
  ghost predicate Ready(s: Scene, allowed: set<NodeId>, r: Request, picked: Groups, index: nat) {
    && index <= |picked| == |r.needs|
    && (forall i :: 0 <= i < index ==> GroupMeets(s, allowed, r.needs[i], picked[i]))
    && (forall i :: index <= i < |picked| ==> picked[i] == [])
    && TopologyHolds(s.graph, r.topology, picked)
  }

  /** The first `index` needs are met and the next one has been given `chosen` so far. */
  ghost predicate Filling(s: Scene, allowed: set<NodeId>, r: Request, picked: Groups, index: nat, chosen: seq<Claim>) {
    && index < |picked| == |r.needs|
    && (forall i :: 0 <= i < index ==> GroupMeets(s, allowed, r.needs[i], picked[i]))
    && picked[index] == chosen && |chosen| <= GroupSize(r.needs[index])
    && (forall i :: 0 <= i < |chosen| ==> GoodClaim(s, allowed, r.needs[index], chosen[i]))
    && (forall i :: index < i < |picked| ==> picked[i] == [])
  }

  lemma ReadyFills(s: Scene, allowed: set<NodeId>, r: Request, picked: Groups, index: nat)
    requires Ready(s, allowed, r, picked, index) && index < |picked|
    ensures Filling(s, allowed, r, picked, index, [])
  {
  }

  lemma FilledIsReady(s: Scene, allowed: set<NodeId>, r: Request, picked: Groups, index: nat, chosen: seq<Claim>)
    requires Filling(s, allowed, r, picked, index, chosen) && |chosen| == GroupSize(r.needs[index])
    requires TopologyHolds(s.graph, r.topology, picked)
    ensures Ready(s, allowed, r, picked, index + 1) && picked[..index + 1] == picked[..index] + [chosen]
  {
  }

  lemma FillOne(s: Scene, allowed: set<NodeId>, r: Request, picked: Groups, index: nat, chosen: seq<Claim>, c: Claim)
    requires Filling(s, allowed, r, picked, index, chosen) && |chosen| < GroupSize(r.needs[index])
    requires GoodClaim(s, allowed, r.needs[index], c)
    ensures Filling(s, allowed, r, picked[index := chosen + [c]], index, chosen + [c])
  {
  }

  lemma FillingIs(s: Scene, allowed: set<NodeId>, r: Request, picked: Groups, index: nat, chosen: seq<Claim>)
    requires Filling(s, allowed, r, picked, index, chosen)
    ensures index < |picked| == |r.needs| && picked[index] == chosen && |chosen| <= GroupSize(r.needs[index])
  {
  }

  lemma FillingIsPartial(s: Scene, allowed: set<NodeId>, r: Request, picked: Groups, index: nat, chosen: seq<Claim>)
    requires Filling(s, allowed, r, picked, index, chosen)
    ensures picked == Partial(picked[..index], chosen, |r.needs|)
  {
  }

  lemma ReadyIsSolution(s: Scene, allowed: set<NodeId>, r: Request, picked: Groups)
    requires Ready(s, allowed, r, picked, |r.needs|)
    ensures Solution(s, allowed, r, picked)
  {
  }

  lemma LastIsCovered(s: Scene, allowed: set<NodeId>, r: Request, sol: Groups, index: nat, chosen: seq<Claim>, c: Claim)
    requires Solution(s, allowed, r, sol) && index < |sol| && chosen + [c] <= sol[index]
    ensures CanCover(s.graph, s.used, c)
  {
    assert GroupMeets(s, allowed, r.needs[index], sol[index]);
    assert sol[index][|chosen|] == c;
    assert GoodClaim(s, allowed, r.needs[index], sol[index][|chosen|]);
  }

  lemma NotCovered(s: Scene, allowed: set<NodeId>, r: Request, prefix: Groups, chosen: seq<Claim>, c: Claim,
                   ranked: seq<NodeId>, start: nat)
    requires |prefix| < |r.needs| && !CanCover(s.graph, s.used, c)
    ensures NoneContinues(s, allowed, r, prefix, chosen + [c], ranked, start)
  {
    forall sol: Groups | Solution(s, allowed, r, sol) && |prefix| < |sol| && prefix <= sol
           && chosen + [c] <= sol[|prefix|]
      ensures false
    {
      LastIsCovered(s, allowed, r, sol, |prefix|, chosen, c);
    }
  }

  /** The nodes a need may be placed on, in search order. */
  ghost predicate Ranked(s: Scene, allowed: set<NodeId>, need: Need, ranked: seq<NodeId>) {
    Distinct(ranked) && forall n :: n in ranked <==> n in allowed && Candidate(s, need, n)
  }

  lemma RankedIsGood(s: Scene, allowed: set<NodeId>, need: Need, ranked: seq<NodeId>, p: nat)
    requires Ranked(s, allowed, need, ranked) && p < |ranked|
    ensures GoodClaim(s, allowed, need, Claim(ranked[p], Unit(need)))
  {
  }

  /** The candidates for a need among the allowed nodes, ranked. */
  method RankAllowed(s: Scene, need: Need, allowed: set<NodeId>) returns (ranked: seq<NodeId>)
    requires WellFormed(s.graph)
    ensures Ranked(s, allowed, need, ranked)
  {
    var all := Candidates(s, need);
    hide WellFormed, Candidate;
    var kept: seq<NodeId> := [];
    for i := 0 to |all|
      invariant Distinct(kept) && forall n :: n in kept <==> n in all[..i] && n in allowed
    {
      assert all[..i + 1] == all[..i] + [all[i]] && all[i] !in all[..i];
      if all[i] in allowed {
        kept := kept + [all[i]];
      }
    }
    assert all[..|all|] == all;
    ranked := Rank(kept);
  }

  class MachineSearch {
    const scene: Scene
    const allowed: set<NodeId>
    const request: Request
    var remaining: nat
    var picked: Groups

    constructor (scene: Scene, allowed: set<NodeId>, request: Request, budget: nat)
      ensures this.scene == scene && this.allowed == allowed && this.request == request
      ensures remaining == budget && Ready(scene, allowed, request, picked, 0)
    {
      this.scene, this.allowed, this.request, remaining := scene, allowed, request, budget;
      picked := seq(|request.needs|, _ => []);
    }

    method Consume() returns (ok: bool)
      modifies this`remaining
      ensures ok <==> old(remaining) > 0
      ensures remaining == if ok then old(remaining) - 1 else old(remaining)
    {
      if remaining == 0 {
        return false;
      }
      remaining := remaining - 1;
      return true;
    }

    method Holds() returns (holds: bool)
      ensures holds <==> TopologyHolds(scene.graph, request.topology, picked)
    {
      holds := CheckTopology(scene.graph, request.topology, picked);
    }

    /** Places the needs from `index` on. */
    method Needs(index: nat) returns (found: bool)
      requires WellFormed(scene.graph) && Ready(scene, allowed, request, picked, index)
      modifies this`remaining, this`picked
      ensures remaining <= old(remaining)
      ensures found ==> Solution(scene, allowed, request, picked) && old(picked)[..index] <= picked
      ensures !found ==> picked == old(picked)
      ensures !found && remaining > 0 ==> NoneExtends(scene, allowed, request, old(picked)[..index])
      decreases |request.needs| - index, 1, 0
    {
      hide WellFormed, TopologyHolds, GroupMeets, GoodClaim, Solution, NoneExtends, NoneContinues, Ranked;
      if index == |request.needs| {
        ReadyIsSolution(scene, allowed, request, picked);
        found := Holds();
        return;
      }
      var need := request.needs[index];
      ReadyFills(scene, allowed, request, picked, index);
      assert TopologyHolds(scene.graph, request.topology, picked);
      hide Ready, Filling;
      var ranked := RankAllowed(scene, need, allowed);
      if Consumable(need) {
        found := Single(index, ranked);
      } else {
        found := Group(index, ranked, GroupSize(need), 0, []);
      }
      if !found && remaining > 0 {
        Covered(scene, allowed, request, picked[..index], ranked);
      }
    }

    /** The loop of a consumable need: one claim, on each ranked node in turn. */
    method Single(index: nat, ranked: seq<NodeId>) returns (found: bool)
      requires WellFormed(scene.graph) && index < |request.needs| && Consumable(request.needs[index])
      requires Filling(scene, allowed, request, picked, index, [])
               && Ranked(scene, allowed, request.needs[index], ranked)
      modifies this`remaining, this`picked
      ensures remaining <= old(remaining)
      ensures found ==> Solution(scene, allowed, request, picked) && old(picked)[..index] <= picked
      ensures !found ==> picked == old(picked)
      ensures !found && remaining > 0 ==>
                NoneContinues(scene, allowed, request, old(picked)[..index], [], ranked, 0)
      decreases |request.needs| - index, 0, 1
    {
      hide WellFormed, TopologyHolds, GroupMeets, GoodClaim, Solution, NoneExtends, NoneContinues, Ranked, CanCover;
      var wanted := Unit(request.needs[index]);
      ghost var prefix := picked[..index];
      for position := 0 to |ranked|
        invariant picked == old(picked) && remaining <= old(remaining)
        invariant remaining > 0 && NoneContinues(scene, allowed, request, prefix, [], ranked, position) ==>
                    NoneContinues(scene, allowed, request, prefix, [], ranked, 0)
      {
        var ok := Consume();
        if !ok {
          return false;
        }
        var claim := Claim(ranked[position], wanted);
        if !CanCover(scene.graph, scene.used, claim) {
          NotCovered(scene, allowed, request, prefix, [], claim, ranked, position + 1);
        } else {
          RankedIsGood(scene, allowed, request.needs[index], ranked, position);
          FillOne(scene, allowed, request, picked, index, [], claim);
          picked := picked[index := [claim]];
          found := Descend(index, [claim], ranked, position + 1);
          if found {
            return true;
          }
          picked := picked[index := []];
        }
        assert [] + [claim] == [claim];
        Tried(scene, allowed, request, prefix, [], ranked, position, remaining);
      }
      PositionsExhausted(scene, allowed, request, prefix, [], ranked);
      return false;
    }

    /** After the single claim of a consumable need: go on to the next need if nothing is broken. */
    method Descend(index: nat, chosen: seq<Claim>, ghost ranked: seq<NodeId>, ghost start: nat) returns (found: bool)
      requires WellFormed(scene.graph) && Filling(scene, allowed, request, picked, index, chosen)
      requires |chosen| == GroupSize(request.needs[index])
      modifies this`remaining, this`picked
      ensures remaining <= old(remaining)
      ensures found ==> Solution(scene, allowed, request, picked) && old(picked)[..index] <= picked
      ensures !found ==> picked == old(picked)
      ensures !found && remaining > 0 ==>
                NoneContinues(scene, allowed, request, old(picked)[..index], chosen, ranked, start)
      decreases |request.needs| - index, 0, 0
    {
      hide WellFormed, TopologyHolds, GroupMeets, GoodClaim, Solution, NoneExtends, NoneContinues, Ready;
      ghost var prefix := picked[..index];
      FillingIsPartial(scene, allowed, request, picked, index, chosen);
      found := Holds();
      if found {
        FilledIsReady(scene, allowed, request, picked, index, chosen);
        found := Needs(index + 1);
        if !found && remaining > 0 {
          FullGroup(scene, allowed, request, prefix, chosen, ranked, start);
        }
      } else {
        BrokenHasNoSolution(scene, allowed, request, prefix, chosen, ranked, start);
      }
    }

    /** Completes the group of need `index` with claims at ranked positions from `start`. */
    method Group(index: nat, ranked: seq<NodeId>, count: nat, start: nat, chosen: seq<Claim>) returns (found: bool)
      requires WellFormed(scene.graph) && start <= |ranked| && index < |request.needs|
               && count == GroupSize(request.needs[index])
      requires Filling(scene, allowed, request, picked, index, chosen)
               && Ranked(scene, allowed, request.needs[index], ranked)
      requires TopologyHolds(scene.graph, request.topology, picked)
      modifies this`remaining, this`picked
      ensures remaining <= old(remaining)
      ensures found ==> Solution(scene, allowed, request, picked) && old(picked)[..index] <= picked
      ensures !found ==> picked == old(picked)
      ensures !found && remaining > 0 ==>
                NoneContinues(scene, allowed, request, old(picked)[..index], chosen, ranked, start)
      decreases |request.needs| - index, 0, |ranked| - start
    {
      hide WellFormed, TopologyHolds, GroupMeets, GoodClaim, Solution, NoneExtends, NoneContinues, Ranked, CanCover;
      ghost var prefix := picked[..index];
      FillingIs(scene, allowed, request, picked, index, chosen);
      hide Filling, Ready, Partial, GroupSize, Unit;
      if |chosen| == count {
        FilledIsReady(scene, allowed, request, picked, index, chosen);
        found := Needs(index + 1);
        if !found && remaining > 0 {
          FullGroup(scene, allowed, request, prefix, chosen, ranked, start);
        }
        return;
      }
      for position := start to |ranked|
        invariant picked == old(picked) && remaining <= old(remaining)
        invariant remaining > 0 && NoneContinues(scene, allowed, request, prefix, chosen, ranked, position) ==>
                    NoneContinues(scene, allowed, request, prefix, chosen, ranked, start)
      {
        var ok := Consume();
        if !ok {
          return false;
        }
        var claim := Claim(ranked[position], Unit(request.needs[index]));
        if !CanCover(scene.graph, scene.used, claim) {
          NotCovered(scene, allowed, request, prefix, chosen, claim, ranked, position + 1);
        } else {
          RankedIsGood(scene, allowed, request.needs[index], ranked, position);
          FillOne(scene, allowed, request, picked, index, chosen, claim);
          picked := picked[index := chosen + [claim]];
          FillingIsPartial(scene, allowed, request, picked, index, chosen + [claim]);
          var valid := Holds();
          if valid {
            found := Group(index, ranked, count, position + 1, chosen + [claim]);
            if found {
              return true;
            }
          } else {
            BrokenHasNoSolution(scene, allowed, request, prefix, chosen + [claim], ranked, position + 1);
          }
          picked := picked[index := chosen];
        }
        Tried(scene, allowed, request, prefix, chosen, ranked, position, remaining);
      }
      PositionsExhausted(scene, allowed, request, prefix, chosen, ranked);
      return false;
    }
  }

  lemma Tried(s: Scene, allowed: set<NodeId>, r: Request, prefix: Groups, chosen: seq<Claim>, ranked: seq<NodeId>,
              p: nat, remaining: nat)
    requires |prefix| < |r.needs| && |chosen| < GroupSize(r.needs[|prefix|]) && p < |ranked|
    requires remaining > 0 ==>
               NoneContinues(s, allowed, r, prefix, chosen + [Claim(ranked[p], Unit(r.needs[|prefix|]))], ranked, p + 1)
    ensures remaining > 0 && NoneContinues(s, allowed, r, prefix, chosen, ranked, p + 1) ==>
              NoneContinues(s, allowed, r, prefix, chosen, ranked, p)
  {
    hide NoneContinues;
    if remaining > 0 && NoneContinues(s, allowed, r, prefix, chosen, ranked, p + 1) {
      PositionFails(s, allowed, r, prefix, chosen, ranked, p);
    }
  }

  lemma Covered(s: Scene, allowed: set<NodeId>, r: Request, prefix: Groups, ranked: seq<NodeId>)
    requires |prefix| < |r.needs| && Ranked(s, allowed, r.needs[|prefix|], ranked)
    requires NoneContinues(s, allowed, r, prefix, [], ranked, 0)
    ensures NoneExtends(s, allowed, r, prefix)
  {
    GroupsCovered(s, allowed, r, prefix, ranked);
  }

  const FALLBACK_SEARCH_BUDGET := 4096

  /** One bounded search of a machine's subtree. What it returns is a solution; if it
      returns nothing while budget is left, that subtree holds no solution. */
  method SearchMachine(scene: Scene, allowed: set<NodeId>, request: Request, budget: nat)
    returns (result: Option<Groups>, left: nat)
    requires WellFormed(scene.graph)
    ensures left <= budget
    ensures result.Some? ==> Solution(scene, allowed, request, result.value)
    ensures result.None? && left > 0 ==> forall sol: Groups :: !Solution(scene, allowed, request, sol)
  {
    hide WellFormed, Solution, Ready;
    var search := new MachineSearch(scene, allowed, request, budget);
    var found := search.Needs(0);
    left := search.remaining;
    result := if found then Some(search.picked) else None;
  }
}
