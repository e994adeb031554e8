/** The resource graph (crates/kernel/src/graph.rs): typed nodes, stored edges,
    indexes derived from them, and the contracts that make capacity claimable. */
module ResourceGraph {
  import opened Forest
  import opened Quantities

  type NodeId = nat
  type ProviderId = nat
  type WriterId = nat
  /** Resource class names are interned, like dimensions. */
  type ResourceClass = nat
  type Attrs = map<string, string>

  const MACHINE: ResourceClass := 0
  const MEMORY: ResourceClass := 1
  const DATA_OBJECT: ResourceClass := 2
  const HEALTH := "health"

  datatype Option<T> = None | Some(value: T)

  datatype Node = Node(id: NodeId, kind: ResourceClass, attrs: Attrs, capacity: Quantity)

  datatype EdgeKind = Contains | Connected | CachedOn

  datatype EdgeKey = EdgeKey(from: NodeId, to: NodeId, kind: EdgeKind)

  datatype Edge = Edge(key: EdgeKey, attrs: Attrs)

  datatype BindingScope = Exclusive | IndependentShare

  datatype ClaimBinding = ClaimBinding(provider: ProviderId, scope: BindingScope)

  datatype ClaimBindingUpdate = ClaimBindingUpdate(node: NodeId, dimension: Dimension, binding: Option<ClaimBinding>)

  datatype FactBatch = FactBatch(writer: WriterId, nodes: seq<Node>, edges: seq<Edge>)

  datatype WriterAssignment = WriterAssignment(writer: WriterId, nodes: seq<NodeId>, edges: seq<EdgeKey>)

  datatype Graph = Graph(
    revision: nat,
    nodes: map<NodeId, Node>,
    edges: seq<Edge>,
    parent: ParentMap,
    children: map<NodeId, seq<NodeId>>,
    byClass: map<ResourceClass, seq<NodeId>>,
    claimBindings: map<NodeId, map<Dimension, ClaimBinding>>,
    nodeWriters: map<NodeId, WriterId>,
    edgeWriters: map<EdgeKey, WriterId>,
    observations: map<NodeId, Attrs>)

  const U64_MAX := 0xFFFF_FFFF_FFFF_FFFF

  function Successor(revision: nat): nat {
    if revision < U64_MAX then revision + 1 else revision
  }

  function EmptyGraph(): Graph {
    assert IsRank(map[], map[]);
    Graph(0, map[], [], map[], map[], map[], map[], map[], map[], map[])
  }

  /* ---------- reading the graph ---------- */

  function CapacityOf(g: Graph, n: NodeId): Quantity {
    if n in g.nodes then g.nodes[n].capacity else map[]
  }

  predicate IsClass(g: Graph, n: NodeId, kind: ResourceClass) {
    n in g.nodes && g.nodes[n].kind == kind
  }

  function FirstOfClass(g: Graph, chain: seq<NodeId>, kind: ResourceClass): Option<NodeId> {
    if chain == [] then None
    else if IsClass(g, chain[0], kind) then Some(chain[0])
    else FirstOfClass(g, chain[1..], kind)
  }

  function AncestorOfClass(g: Graph, n: NodeId, kind: ResourceClass): Option<NodeId> {
    FirstOfClass(g, [n] + Ancestors(g.parent, n), kind)
  }

  function MachineOf(g: Graph, n: NodeId): Option<NodeId> {
    AncestorOfClass(g, n, MACHINE)
  }

  function ChildrenOf(g: Graph, n: NodeId): seq<NodeId> {
    if n in g.children then g.children[n] else []
  }

  function ClassMembers(g: Graph, kind: ResourceClass): seq<NodeId> {
    if kind in g.byClass then g.byClass[kind] else []
  }

  function ContractOn(g: Graph, n: NodeId, d: Dimension): Option<ClaimBinding> {
    if n in g.claimBindings && d in g.claimBindings[n] then Some(g.claimBindings[n][d]) else None
  }

  predicate Demanded(q: Quantity, d: Dimension) {
    d in q && q[d] > 0
  }

  /** `cb` is the one contract behind every positive dimension of `q`. */
  predicate IsContractFor(g: Graph, n: NodeId, q: Quantity, cb: ClaimBinding) {
    && n in g.nodes
    && (exists d :: d in q && Demanded(q, d))
    && (forall d :: d in q && Demanded(q, d) ==> ContractOn(g, n, d) == Some(cb))
  }

  ghost function ContractFor(g: Graph, n: NodeId, q: Quantity): Option<ClaimBinding> {
    if exists cb :: IsContractFor(g, n, q, cb) then
      var cb :| IsContractFor(g, n, q, cb); Some(cb)
    else None
  }

  lemma ContractUnique(g: Graph, n: NodeId, q: Quantity, cb: ClaimBinding)
    requires IsContractFor(g, n, q, cb)
    ensures ContractFor(g, n, q) == Some(cb)
  {
  }

  method ClaimBindingForQuantity(g: Graph, n: NodeId, q: Quantity) returns (r: Option<ClaimBinding>)
    ensures r == ContractFor(g, n, q)
  {
    if n !in g.nodes {
      return None;
    }
    var selected: Option<ClaimBinding> := None;
    var todo := q.Keys;
    while todo != {}
      invariant todo <= q.Keys
      invariant selected.None? ==> forall d :: d in q && d !in todo ==> !Demanded(q, d)
      invariant selected.Some? ==> exists d :: d in q && d !in todo && Demanded(q, d)
      invariant selected.Some? ==>
          forall d :: d in q && d !in todo && Demanded(q, d) ==> ContractOn(g, n, d) == selected
    {
      var d :| d in todo;
      todo := todo - {d};
      if q[d] == 0 {
        continue;
      }
      assert Demanded(q, d);
      var contract := ContractOn(g, n, d);
      if contract.None? {
        assert forall cb :: !IsContractFor(g, n, q, cb);
        return None;
      }
      if selected.Some? && selected != contract {
        ghost var d0 :| d0 in q && d0 !in todo && d0 != d && Demanded(q, d0);
        assert forall cb :: IsContractFor(g, n, q, cb) ==> Some(cb) == selected && Some(cb) == contract;
        assert forall cb :: !IsContractFor(g, n, q, cb);
        return None;
      }
      selected := contract;
    }
    if selected.Some? {
      assert IsContractFor(g, n, q, selected.value);
      ContractUnique(g, n, q, selected.value);
    } else {
      assert forall cb :: !IsContractFor(g, n, q, cb);
    }
    return selected;
  }

  /* ---------- indexes ---------- */

  predicate Holds(edges: seq<Edge>, key: EdgeKey) {
    exists i :: 0 <= i < |edges| && edges[i].key == key
  }

  predicate ContainsEdge(edges: seq<Edge>, p: NodeId, c: NodeId) {
    Holds(edges, EdgeKey(p, c, Contains))
  }

  /** The last stored container of every contained node. */
  function ParentIndex(edges: seq<Edge>): map<NodeId, NodeId> {
    if edges == [] then map[]
    else
      var rest := ParentIndex(edges[..|edges| - 1]);
      var key := edges[|edges| - 1].key;
      if key.kind == Contains then rest[key.to := key.from] else rest
  }

  ghost predicate SingleContainer(edges: seq<Edge>) {
    && (forall p, c :: ContainsEdge(edges, p, c) ==> p != c)
    && (forall p, q, c :: ContainsEdge(edges, p, c) && ContainsEdge(edges, q, c) ==> p == q)
  }

  ghost predicate ValidContains(edges: seq<Edge>) {
    SingleContainer(edges) && Acyclic(ParentIndex(edges))
  }

  predicate UniqueKeys(edges: seq<Edge>) {
    forall i, j :: 0 <= i < j < |edges| ==> edges[i].key != edges[j].key
  }

  predicate Ascending(s: seq<nat>) {
    forall i, j :: 0 <= i < j < |s| ==> s[i] < s[j]
  }

  /** What it means for the derived indexes to agree with the stored facts. */
  ghost predicate IndexesAgree(g: Graph) {
    && (forall c :: c in g.parent ==> ContainsEdge(g.edges, g.parent[c], c))
    && (forall p, c :: ContainsEdge(g.edges, p, c) ==> c in g.parent && g.parent[c] == p)
    && (forall p :: Ascending(ChildrenOf(g, p)))
    && (forall p, c :: c in ChildrenOf(g, p) <==> c in g.parent && g.parent[c] == p)
    && (forall k :: Ascending(ClassMembers(g, k)))
    && (forall k, n :: n in ClassMembers(g, k) <==> IsClass(g, n, k))
  }

  /** Facts every graph built by fact updates keeps. */
  ghost predicate WellFormed(g: Graph) {
    && (forall n :: n in g.nodes ==> g.nodes[n].id == n)
    && UniqueKeys(g.edges)
    && (forall i :: 0 <= i < |g.edges| ==> g.edges[i].key.from in g.nodes && g.edges[i].key.to in g.nodes)
    && SingleContainer(g.edges)
    && IndexesAgree(g)
  }

  ghost function SortedSeq(s: set<nat>): (r: seq<nat>)
    ensures Ascending(r) && forall x :: x in r <==> x in s
    decreases |s|
  {
    if s == {} then []
    else
      var top := GreatestOf(s);
      var r := SortedSeq(s - {top});
      assert forall x :: x in r ==> x < top;
      r + [top]
  }

  ghost function GreatestOf(s: set<nat>): (top: nat)
    requires s != {}
    ensures top in s && forall x :: x in s ==> x <= top
    decreases |s|
  {
    var x :| x in s;
    if s == {x} then x
    else
      assert s == (s - {x}) + {x};
      var y := GreatestOf(s - {x});
      if x < y then y else x
  }

  lemma LastIsGreatest(a: seq<nat>)
    requires Ascending(a) && a != []
    ensures Ascending(a[..|a| - 1])
    ensures forall x :: x in a[..|a| - 1] <==> x in a && x < a[|a| - 1]
    ensures forall x :: x in a ==> x <= a[|a| - 1]
  {
  }

  lemma {:induction false} AscendingUnique(a: seq<nat>, b: seq<nat>)
    requires Ascending(a) && Ascending(b)
    requires forall x :: x in a <==> x in b
    ensures a == b
    decreases |a|
  {
    hide Ascending;
    assert b != [] ==> b[0] in b;
    if a != [] {
      SameLast(a, b);
      AscendingUnique(a[..|a| - 1], b[..|b| - 1]);
      assert a == a[..|a| - 1] + [a[|a| - 1]] && b == b[..|b| - 1] + [b[|b| - 1]];
    }
  }

  lemma SameLast(a: seq<nat>, b: seq<nat>)
    requires Ascending(a) && Ascending(b) && a != [] && forall x :: x in a <==> x in b
    ensures b != [] && a[|a| - 1] == b[|b| - 1] && Ascending(a[..|a| - 1]) && Ascending(b[..|b| - 1])
    ensures var a', b' := a[..|a| - 1], b[..|b| - 1]; forall x :: x in a' <==> x in b'
  {
    hide Ascending;
    assert a[|a| - 1] in a;
    assert b[|b| - 1] in b;
    LastIsGreatest(a);
    LastIsGreatest(b);
    var a', b' := a[..|a| - 1], b[..|b| - 1];
    forall x
      ensures x in a' <==> x in b'
    {
      assert x in a <==> x in b;
    }
  }

  function Insert(s: seq<nat>, x: nat): seq<nat> {
    if s == [] then [x]
    else if x < s[0] then [x] + s
    else [s[0]] + Insert(s[1..], x)
  }

  function Sort(s: seq<nat>): seq<nat> {
    if s == [] then [] else Insert(Sort(s[1..]), s[0])
  }

  lemma {:induction false} InsertKeeps(s: seq<nat>, x: nat)
    requires Ascending(s) && x !in s
    ensures Ascending(Insert(s, x)) && forall y :: y in Insert(s, x) <==> y == x || y in s
  {
    if s == [] {
      assert Insert(s, x) == [x];
    } else {
      assert s == [s[0]] + s[1..];
      HeadIsLeast(s);
      if x < s[0] {
        Prepended(x, s);
      } else {
        assert x != s[0];
        InsertKeeps(s[1..], x);
        Prepended(s[0], Insert(s[1..], x));
      }
    }
  }

  lemma HeadIsLeast(s: seq<nat>)
    requires Ascending(s) && s != []
    ensures Ascending(s[1..]) && forall y :: y in s[1..] ==> s[0] < y
  {
  }

  lemma Prepended(x: nat, s: seq<nat>)
    requires Ascending(s) && forall y :: y in s ==> x < y
    ensures Ascending([x] + s) && forall y :: y in [x] + s <==> y == x || y in s
  {
    forall i, j | 0 <= i < j < |[x] + s|
      ensures ([x] + s)[i] < ([x] + s)[j]
    {
      assert ([x] + s)[j] == s[j - 1] && s[j - 1] in s;
    }
  }

  lemma {:induction false} SortKeeps(s: seq<nat>)
    requires Distinct(s)
    ensures Ascending(Sort(s)) && forall y :: y in Sort(s) <==> y in s
  {
    if s != [] {
      assert s == [s[0]] + s[1..];
      SortKeeps(s[1..]);
      InsertKeeps(Sort(s[1..]), s[0]);
    }
  }

  function Preimage(m: map<nat, nat>, y: nat): set<nat> {
    set x | x in m && m[x] == y
  }

  function Image(m: map<nat, nat>): set<nat> {
    set x | x in m :: m[x]
  }

  /** Every value of `m` with its arguments in ascending order. */
  ghost function Inverse(m: map<nat, nat>): map<nat, seq<nat>> {
    map y | y in Image(m) :: SortedSeq(Preimage(m, y))
  }

  function KindMap(nodes: map<NodeId, Node>): map<NodeId, ResourceClass> {
    map n | n in nodes :: nodes[n].kind
  }

  lemma {:induction false} ParentIndexAgrees(edges: seq<Edge>)
    requires SingleContainer(edges)
    ensures forall p, c :: ContainsEdge(edges, p, c) <==> c in ParentIndex(edges) && ParentIndex(edges)[c] == p
  {
    if edges != [] {
      var rest, last := edges[..|edges| - 1], edges[|edges| - 1];
      assert edges == rest + [last];
      HoldsAppend(rest, last);
      SinglePrefix(edges, |edges| - 1);
      ParentIndexAgrees(rest);
      forall p, c
        ensures ContainsEdge(edges, p, c) <==> c in ParentIndex(edges) && ParentIndex(edges)[c] == p
      {
        assert ContainsEdge(edges, p, c) <==> EdgeKey(p, c, Contains) == last.key || ContainsEdge(rest, p, c);
        if last.key.kind == Contains && c == last.key.to {
          assert ContainsEdge(edges, last.key.from, c);
        }
      }
    }
  }

  /** Rebuilding the indexes from valid facts makes them agree with the facts. */
  lemma RebuiltAgrees(g: Graph)
    requires SingleContainer(g.edges)
    requires g.parent == ParentIndex(g.edges) && g.children == Inverse(g.parent)
             && g.byClass == Inverse(KindMap(g.nodes))
    ensures IndexesAgree(g)
  {
    ParentIndexAgrees(g.edges);
    forall p
      ensures Ascending(ChildrenOf(g, p))
      ensures forall c :: c in ChildrenOf(g, p) <==> c in g.parent && g.parent[c] == p
    {
      assert p in Image(g.parent) || forall c :: c in g.parent ==> g.parent[c] != p;
    }
    var kinds := KindMap(g.nodes);
    forall k
      ensures Ascending(ClassMembers(g, k))
      ensures forall n :: n in ClassMembers(g, k) <==> IsClass(g, n, k)
    {
      assert k in Image(kinds) || forall n :: n in kinds ==> kinds[n] != k;
      assert forall n :: n in Preimage(kinds, k) <==> IsClass(g, n, k);
    }
  }

  /** `lists` names the arguments of every value of `m`, in any order and without repeats. */
  ghost predicate ListsInverse(m: map<nat, nat>, lists: map<nat, seq<nat>>) {
    && (forall y :: y in lists ==> lists[y] != [] && Distinct(lists[y]))
    && (forall x :: x in m ==> m[x] in lists)
    && (forall x, y :: y in lists ==> (x in lists[y] <==> x in m && m[x] == y))
  }

  lemma ListsInverseStep(m: map<nat, nat>, lists: map<nat, seq<nat>>, x: nat, y: nat)
    requires ListsInverse(m, lists) && x !in m
    ensures ListsInverse(m[x := y], lists[y := (if y in lists then lists[y] else []) + [x]])
  {
  }

  lemma SortedIsInverse(m: map<nat, nat>, lists: map<nat, seq<nat>>, sorted: map<nat, seq<nat>>)
    requires ListsInverse(m, lists)
    requires sorted.Keys == lists.Keys && forall y :: y in lists ==> sorted[y] == Sort(lists[y])
    ensures sorted == Inverse(m)
  {
    forall y | y in lists
      ensures y in Inverse(m) && sorted[y] == Inverse(m)[y]
    {
      assert lists[y][0] in lists[y];
      SortKeeps(lists[y]);
      AscendingUnique(Sort(lists[y]), SortedSeq(Preimage(m, y)));
    }
  }

  lemma FreshChild(edges: seq<Edge>, i: nat)
    requires UniqueKeys(edges) && SingleContainer(edges)
    requires i < |edges| && edges[i].key.kind == Contains
    ensures edges[i].key.to !in ParentIndex(edges[..i])
  {
    SinglePrefix(edges, i);
    ParentIndexAgrees(edges[..i]);
    var parent, c := ParentIndex(edges[..i]), edges[i].key.to;
    if c in parent {
      assert ContainsEdge(edges[..i], parent[c], c);
      var j :| 0 <= j < i && edges[..i][j].key == EdgeKey(parent[c], c, Contains);
      assert edges[j].key == EdgeKey(parent[c], c, Contains);
      assert ContainsEdge(edges, parent[c], c) && ContainsEdge(edges, edges[i].key.from, c);
      assert false;
    }
  }

  method Rebuild(nodes: map<NodeId, Node>, edges: seq<Edge>)
    returns (parent: map<NodeId, NodeId>, children: map<NodeId, seq<NodeId>>, byClass: map<ResourceClass, seq<NodeId>>)
    requires UniqueKeys(edges) && SingleContainer(edges)
    ensures parent == ParentIndex(edges) && children == Inverse(ParentIndex(edges))
            && byClass == Inverse(KindMap(nodes))
  {
    byClass := RebuildClasses(nodes);
    parent, children := map[], map[];
    for i := 0 to |edges|
      invariant parent == ParentIndex(edges[..i])
      invariant ListsInverse(parent, children)
    {
      assert edges[..i + 1][..i] == edges[..i];
      var key := edges[i].key;
      if key.kind == Contains {
        FreshChild(edges, i);
        ListsInverseStep(parent, children, key.to, key.from);
        parent := parent[key.to := key.from];
        children := children[key.from := (if key.from in children then children[key.from] else []) + [key.to]];
      }
    }
    assert edges[..|edges|] == edges;
    ghost var lists := children;
    children := SortLists(children);
    SortedIsInverse(parent, lists, children);
  }

  method SortLists(lists: map<nat, seq<nat>>) returns (out: map<nat, seq<nat>>)
    ensures out.Keys == lists.Keys && forall k :: k in lists ==> out[k] == Sort(lists[k])
  {
    out := lists;
    var todo := lists.Keys;
    while todo != {}
      invariant todo <= lists.Keys == out.Keys
      invariant forall k :: k in lists ==> out[k] == if k in todo then lists[k] else Sort(lists[k])
    {
      var k :| k in todo;
      out := out[k := Sort(lists[k])];
      todo := todo - {k};
    }
  }

  lemma HoldsAppend(edges: seq<Edge>, e: Edge)
    ensures forall k :: Holds(edges + [e], k) <==> k == e.key || Holds(edges, k)
  {
    forall k
      ensures Holds(edges + [e], k) <==> k == e.key || Holds(edges, k)
    {
      if Holds(edges, k) {
        var i :| 0 <= i < |edges| && edges[i].key == k;
        assert (edges + [e])[i].key == k;
      }
      if Holds(edges + [e], k) {
        var i :| 0 <= i < |edges + [e]| && (edges + [e])[i].key == k;
        assert i < |edges| ==> edges[i].key == k;
      }
      assert (edges + [e])[|edges|] == e;
    }
  }

  lemma SinglePrefix(edges: seq<Edge>, n: nat)
    requires SingleContainer(edges) && n <= |edges|
    ensures SingleContainer(edges[..n])
  {
    forall p, c | ContainsEdge(edges[..n], p, c)
      ensures ContainsEdge(edges, p, c)
    {
      var i :| 0 <= i < n && edges[..n][i].key == EdgeKey(p, c, Contains);
      assert edges[i].key == EdgeKey(p, c, Contains);
    }
  }

  method RebuildClasses(nodes: map<NodeId, Node>) returns (byClass: map<ResourceClass, seq<NodeId>>)
    ensures byClass == Inverse(KindMap(nodes))
  {
    byClass := map[];
    var todo := nodes.Keys;
    ghost var done: map<NodeId, ResourceClass> := map[];
    while todo != {}
      invariant todo <= nodes.Keys
      invariant done.Keys == nodes.Keys - todo && forall n :: n in done ==> done[n] == nodes[n].kind
      invariant ListsInverse(done, byClass)
    {
      var n :| n in todo;
      var k := nodes[n].kind;
      ListsInverseStep(done, byClass, n, k);
      byClass := byClass[k := (if k in byClass then byClass[k] else []) + [n]];
      done := done[n := k];
      todo := todo - {n};
    }
    assert done == KindMap(nodes);
    ghost var lists := byClass;
    byClass := SortLists(byClass);
    SortedIsInverse(done, lists, byClass);
  }

  /* ---------- containment checks and walks ---------- */

  /** Following `parent` from `x` leaves the map after exactly `n` steps. */
  predicate Ends(parent: map<NodeId, NodeId>, x: NodeId, n: nat)
    decreases n
  {
    if n == 0 then x !in parent else x in parent && Ends(parent, parent[x], n - 1)
  }

  lemma {:induction false} EndsUnique(parent: map<NodeId, NodeId>, x: NodeId, m: nat, n: nat)
    requires Ends(parent, x, m) && Ends(parent, x, n)
    ensures m == n
    decreases m
  {
    if m > 0 && n > 0 {
      EndsUnique(parent, parent[x], m - 1, n - 1);
    }
  }

  /** A parent map whose every walk ends has no cycle: the walk length is a rank. */
  lemma EndingWalksAcyclic(parent: map<NodeId, NodeId>, steps: map<NodeId, nat>)
    requires parent.Keys <= steps.Keys && forall x :: x in steps ==> Ends(parent, x, steps[x])
    ensures Acyclic(parent)
  {
    var rank := map x | x in parent :: steps[x];
    forall c | c in parent
      ensures RankAt(rank, parent[c]) < RankAt(rank, c)
    {
      if parent[c] in parent {
        EndsUnique(parent, parent[c], steps[parent[c]], steps[c] - 1);
      }
    }
    assert IsRank(parent, rank);
  }

  ghost predicate Reaches(parent: map<NodeId, NodeId>, x: NodeId, steps: nat, y: NodeId)
    decreases steps
  {
    if steps == 0 then x == y else x in parent && Reaches(parent, parent[x], steps - 1, y)
  }

  lemma {:induction false} ReachesFurther(parent: map<NodeId, NodeId>, x: NodeId, steps: nat, y: NodeId)
    requires Reaches(parent, x, steps, y)
    ensures y in parent ==> Reaches(parent, x, steps + 1, parent[y])
    ensures y !in parent ==> Ends(parent, x, steps)
    decreases steps
  {
    if steps > 0 {
      ReachesFurther(parent, parent[x], steps - 1, y);
    }
  }

  /** The walk of the cycle check from one start: it reports a revisited node. */
  method WalkEnds(parent: map<NodeId, NodeId>, start: NodeId) returns (ok: bool, ghost steps: nat)
    ensures ok ==> Ends(parent, start, steps)
    ensures !ok ==> !Acyclic(parent)
  {
    var visited := {};
    var node := start;
    steps := 0;
    ghost var left := parent.Keys + {start} + Image(parent);
    ghost var rank := if Acyclic(parent) then RankOf(parent) else map[];
    while true
      invariant node in left || node in visited
      invariant forall c :: c in parent ==> parent[c] in left || parent[c] in visited
      invariant Reaches(parent, start, steps, node)
      invariant Acyclic(parent) ==> forall v :: v in visited ==> RankAt(rank, node) < RankAt(rank, v)
      decreases left
    {
      if node in visited {
        return false, 0;
      }
      ReachesFurther(parent, start, steps, node);
      if node !in parent {
        return true, steps;
      }
      visited := visited + {node};
      left := left - {node};
      steps := steps + 1;
      node := parent[node];
    }
  }

  method ValidateContains(edges: seq<Edge>) returns (ok: bool)
    ensures ok <==> ValidContains(edges)
  {
    var parent: map<NodeId, NodeId> := map[];
    for i := 0 to |edges|
      invariant parent == ParentIndex(edges[..i])
      invariant SingleContainer(edges[..i])
    {
      assert edges[..i + 1][..i] == edges[..i] && edges[..i + 1] == edges[..i] + [edges[i]];
      HoldsAppend(edges[..i], edges[i]);
      ParentIndexAgrees(edges[..i]);
      var key := edges[i].key;
      if key.kind == Contains {
        assert ContainsEdge(edges, key.from, key.to) && ContainsEdge(edges[..i + 1], key.from, key.to);
        if key.from == key.to {
          return false;
        }
        if key.to in parent && parent[key.to] != key.from {
          assert ContainsEdge(edges[..i], parent[key.to], key.to);
          HoldsPrefix(edges, i, EdgeKey(parent[key.to], key.to, Contains));
          assert ContainsEdge(edges, parent[key.to], key.to);
          return false;
        }
        parent := parent[key.to := key.from];
      }
      SingleStep(edges[..i], edges[i]);
    }
    assert edges[..|edges|] == edges;
    var todo := parent.Keys;
    ghost var walks: map<NodeId, nat> := map[];
    while todo != {}
      invariant todo <= parent.Keys && walks.Keys == parent.Keys - todo
      invariant forall x :: x in walks ==> Ends(parent, x, walks[x])
    {
      var start :| start in todo;
      ghost var steps;
      ok, steps := WalkEnds(parent, start);
      if !ok {
        return;
      }
      walks := walks[start := steps];
      todo := todo - {start};
    }
    EndingWalksAcyclic(parent, walks);
    return true;
  }

  lemma HoldsPrefix(edges: seq<Edge>, n: nat, key: EdgeKey)
    requires n <= |edges| && Holds(edges[..n], key)
    ensures Holds(edges, key)
  {
  }

  lemma SingleStep(edges: seq<Edge>, e: Edge)
    requires SingleContainer(edges)
    requires e.key.kind == Contains ==> e.key.from != e.key.to
    requires e.key.kind == Contains && e.key.to in ParentIndex(edges) ==> ParentIndex(edges)[e.key.to] == e.key.from
    ensures SingleContainer(edges + [e])
  {
    HoldsAppend(edges, e);
    ParentIndexAgrees(edges);
    forall p, c
      ensures ContainsEdge(edges + [e], p, c) <==> EdgeKey(p, c, Contains) == e.key || ContainsEdge(edges, p, c)
    {
    }
  }

  /** The upward walk lists exactly the ancestors. */
  method AncestorWalk(g: Graph, id: NodeId) returns (out: seq<NodeId>)
    ensures out == Ancestors(g.parent, id)
  {
    out := [];
    var current := if id in g.parent then Some(g.parent[id]) else None;
    while current.Some?
      invariant current.Some? ==> Ancestors(g.parent, id) == out + [current.value] + Ancestors(g.parent, current.value)
      invariant current.None? ==> Ancestors(g.parent, id) == out
      decreases if current.Some? then RankAt(RankOf(g.parent), current.value) + 1 else 0
    {
      var node := current.value;
      out := out + [node];
      current := if node in g.parent then Some(g.parent[node]) else None;
    }
  }

  /** Where the downward walk stands: `out` has been listed, `stack` waits. */
  ghost predicate Walking(parent: ParentMap, id: NodeId, out: set<NodeId>, stack: set<NodeId>) {
    && out !! stack
    && (forall n :: n in out + stack ==> n in parent && Under(parent, n, id))
    && (forall n :: n in out + stack ==> parent[n] == id || parent[n] in out)
    && (forall c :: c in parent && (parent[c] == id || parent[c] in out) ==> c in out + stack)
  }

  lemma WalkingStep(parent: ParentMap, id: NodeId, out: set<NodeId>, stack: set<NodeId>, node: NodeId)
    requires Walking(parent, id, out, stack) && node in stack
    ensures Preimage(parent, node) !! out + stack
    ensures Walking(parent, id, out + {node}, stack - {node} + Preimage(parent, node))
  {
    forall c | c in Preimage(parent, node)
      ensures c !in out + stack && Under(parent, c, id)
    {
      UnderStep(parent, c, id);
      NotUnderItself(parent, id);
    }
  }

  ghost predicate WalkState(parent: ParentMap, id: NodeId, out: seq<NodeId>, stack: seq<NodeId>) {
    Distinct(out) && Distinct(stack) && Walking(parent, id, Elements(out), Elements(stack))
  }

  lemma WalkPops(parent: ParentMap, id: NodeId, out: seq<NodeId>, rest: seq<NodeId>, node: NodeId, kids: seq<NodeId>)
    requires WalkState(parent, id, out, rest + [node])
    requires Distinct(kids) && Elements(kids) == Preimage(parent, node)
    ensures node in parent && node !in out
    ensures WalkState(parent, id, out + [node], rest + kids)
  {
    var stack := rest + [node];
    PopLast(stack);
    assert stack[..|stack| - 1] == rest;
    WalkingStep(parent, id, Elements(out), Elements(stack), node);
    PushAll(out, [node]);
    PushAll(rest, kids);
  }

  /** The stack-based downward walk lists every node below `id` exactly once, so it
      is the converse of the upward walk. */
  method DescendantWalk(g: Graph, id: NodeId) returns (out: seq<NodeId>)
    requires ChildrenListed(g)
    ensures Distinct(out)
    ensures forall n :: n in out <==> id in Ancestors(g.parent, n)
  {
    out := [];
    var stack := ChildrenOf(g, id);
    ghost var left := g.parent.Keys;
    while stack != []
      invariant WalkState(g.parent, id, out, stack)
      invariant forall c :: c in g.parent && c !in out ==> c in left
      decreases left
    {
      var node, rest := stack[|stack| - 1], stack[..|stack| - 1];
      assert stack == rest + [node];
      WalkPops(g.parent, id, out, rest, node, ChildrenOf(g, node));
      left := left - {node};
      out := out + [node];
      stack := rest + ChildrenOf(g, node);
    }
    WalkedAll(g.parent, id, Elements(out));
    assert forall n :: n in out <==> n in Elements(out);
  }

  lemma WalkedAll(parent: ParentMap, id: NodeId, listed: set<NodeId>)
    requires Walking(parent, id, listed, {})
    ensures forall n :: n in listed <==> id in Ancestors(parent, n)
  {
    forall n | Under(parent, n, id)
      ensures n in listed
    {
      ClosedHoldsUnder(parent, listed, n, id);
    }
  }

  /** The child index lists every containee once. */
  ghost predicate ChildrenListed(g: Graph) {
    forall p :: Distinct(ChildrenOf(g, p)) && Elements(ChildrenOf(g, p)) == Preimage(g.parent, p)
  }

  lemma WellFormedListsChildren(g: Graph)
    requires WellFormed(g)
    ensures ChildrenListed(g)
  {
  }

  lemma PopLast(s: seq<nat>)
    requires s != [] && Distinct(s)
    ensures Distinct(s[..|s| - 1]) && Elements(s[..|s| - 1]) == Elements(s) - {s[|s| - 1]}
    ensures s[|s| - 1] in Elements(s)
  {
  }

  lemma PushAll(s: seq<nat>, t: seq<nat>)
    requires Distinct(s) && Distinct(t) && Elements(s) !! Elements(t)
    ensures Distinct(s + t) && Elements(s + t) == Elements(s) + Elements(t)
  {
    assert forall x :: x in s ==> x in Elements(s);
    assert forall x :: x in t ==> x in Elements(t);
    DistinctConcat(s, t);
  }
}
