/**
 * The mind-map outline of a recording flattened into bulleted blocks.
 * Outline nodes arrive as raw decoded values; a node whose `node_id` equals
 * its `parent_node_id` is a root, every other dictionary node hangs under the
 * node whose id is its parent id, and anything that is not a dictionary is
 * ignored. Roots are emitted bold; a node at depth d >= 1 gets 4(d-1) spaces
 * and an arrow before its title. The traversal is pre-order.
 *
 * Termination needs the ids of the dictionary nodes to be distinct: the
 * traversal keeps the path from the root to the current node (`chain`) and
 * proves that a child of the path's last node is never on the path.
 */
module MindMap {
  import opened Text
  import opened Json
  import opened Blocks

  function NodeId(node: Json): Json {
    if node.JObj? then GetNull(node, "node_id") else JNull
  }

  function ParentId(node: Json): Json {
    if node.JObj? then GetNull(node, "parent_node_id") else JNull
  }

  predicate IsRootNode(node: Json) {
    node.JObj? && NodeId(node) == ParentId(node)
  }

  /** `node.get("title", "Untitled")`, as text. */
  function NodeTitle(node: Json): string {
    if node.JObj? then Str(GetOr(node, "title", JStr("Untitled"))) else "Untitled"
  }

  /** No two dictionary nodes share an id. */
  predicate DistinctIds(nodes: seq<Json>) {
    forall i, j :: 0 <= i < |nodes| && 0 <= j < |nodes| && i != j && nodes[i].JObj? && nodes[j].JObj? ==>
      NodeId(nodes[i]) != NodeId(nodes[j])
  }

  // ---------------------------------------------------------------------
  // The parent-to-children index and the roots, as the first loop builds them
  // ---------------------------------------------------------------------

  /** `children_map.get(id, [])` */
  function Kids(children: map<Json, seq<nat>>, id: Json): seq<nat> {
    if id in children then children[id] else []
  }

  /** The children index after the first `n` nodes. */
  function ChildIndex(nodes: seq<Json>, n: nat): map<Json, seq<nat>>
    requires n <= |nodes|
  {
    if n == 0 then map[]
    else
      var m := ChildIndex(nodes, n - 1);
      var node := nodes[n - 1];
      if node.JObj? && !IsRootNode(node) then m[ParentId(node) := Kids(m, ParentId(node)) + [n - 1]] else m
  }

  /** The roots among the first `n` nodes, in order. */
  function RootIndex(nodes: seq<Json>, n: nat): seq<nat>
    requires n <= |nodes|
  {
    if n == 0 then []
    else RootIndex(nodes, n - 1) + (if IsRootNode(nodes[n - 1]) then [n - 1] else [])
  }

  /** Node `c` is a child of node `p`. */
  predicate ChildOf(nodes: seq<Json>, c: nat, p: nat) {
    c < |nodes| && p < |nodes| && nodes[c].JObj? && !IsRootNode(nodes[c]) && ParentId(nodes[c]) == NodeId(nodes[p])
  }

  predicate Increasing(s: seq<nat>) {
    forall a, b :: 0 <= a < b < |s| ==> s[a] < s[b]
  }

  /** Node `c` is a non-root dictionary node whose parent id is `id`. */
  predicate KidOf(nodes: seq<Json>, c: nat, id: Json) {
    c < |nodes| && nodes[c].JObj? && !IsRootNode(nodes[c]) && ParentId(nodes[c]) == id
  }

  /** Lists of increasing indices below `n`, all children of `id`. */
  predicate KidList(nodes: seq<Json>, n: nat, id: Json, ks: seq<nat>) {
    Increasing(ks) && forall j :: 0 <= j < |ks| ==> ks[j] < n && KidOf(nodes, ks[j], id)
  }

  /** One more node: its parent's list grows by it, the others stay. */
  lemma ChildIndexStep(nodes: seq<Json>, n: nat, id: Json)
    requires 0 < n <= |nodes|
    ensures Kids(ChildIndex(nodes, n), id) ==
      if KidOf(nodes, n - 1, id) then Kids(ChildIndex(nodes, n - 1), id) + [n - 1]
      else Kids(ChildIndex(nodes, n - 1), id)
  {
  }

  /** Each child list holds, in increasing order, the non-root dictionary
      nodes whose parent id is its key. */
  lemma {:induction false} ChildIndexSound(nodes: seq<Json>, n: nat, id: Json)
    requires n <= |nodes|
    ensures KidList(nodes, n, id, Kids(ChildIndex(nodes, n), id))
  {
    if n > 0 {
      ChildIndexSound(nodes, n - 1, id);
      ChildIndexNext(nodes, n, id);
    }
  }

  lemma ChildIndexNext(nodes: seq<Json>, n: nat, id: Json)
    requires 0 < n <= |nodes| && KidList(nodes, n - 1, id, Kids(ChildIndex(nodes, n - 1), id))
    ensures KidList(nodes, n, id, Kids(ChildIndex(nodes, n), id))
  {
    ChildIndexStep(nodes, n, id);
    var ks := Kids(ChildIndex(nodes, n - 1), id);
    if KidOf(nodes, n - 1, id) {
      KidListGrow(nodes, n, id, ks);
    } else {
      KidListWiden(nodes, n, id, ks);
    }
  }

  lemma KidListWiden(nodes: seq<Json>, n: nat, id: Json, ks: seq<nat>)
    requires n > 0 && KidList(nodes, n - 1, id, ks)
    ensures KidList(nodes, n, id, ks)
  {
  }

  lemma KidListGrow(nodes: seq<Json>, n: nat, id: Json, ks: seq<nat>)
    requires n > 0 && KidList(nodes, n - 1, id, ks) && KidOf(nodes, n - 1, id)
    ensures KidList(nodes, n, id, ks + [n - 1])
  {
  }

  /** The roots are, in increasing order, the root nodes. */
  lemma {:induction false} RootIndexSound(nodes: seq<Json>, n: nat)
    requires n <= |nodes|
    ensures Increasing(RootIndex(nodes, n))
    ensures forall j :: 0 <= j < |RootIndex(nodes, n)| ==>
      RootIndex(nodes, n)[j] < n && IsRootNode(nodes[RootIndex(nodes, n)[j]])
  {
    if n > 0 {
      RootIndexSound(nodes, n - 1);
    }
  }

  // ---------------------------------------------------------------------
  // Paths from a root
  // ---------------------------------------------------------------------

  /** A path from a root down parent-to-child links, without repetition. */
  predicate WellChain(nodes: seq<Json>, chain: seq<nat>) {
    |chain| >= 1
    && (forall k :: 0 <= k < |chain| ==> chain[k] < |nodes| && nodes[chain[k]].JObj?)
    && IsRootNode(nodes[chain[0]])
    && (forall k :: 1 <= k < |chain| ==> ChildOf(nodes, chain[k], chain[k - 1]))
    && (forall a, b :: 0 <= a < b < |chain| ==> chain[a] != chain[b])
  }

  function Last(chain: seq<nat>): nat
    requires chain != []
  {
    chain[|chain| - 1]
  }

  /** With distinct ids, a child of the path's last node is not on the path. */
  lemma NotOnChain(nodes: seq<Json>, chain: seq<nat>, c: nat)
    requires DistinctIds(nodes) && WellChain(nodes, chain) && ChildOf(nodes, c, Last(chain))
    ensures c !in chain
  {
    forall j | 0 <= j < |chain| ensures chain[j] != c {
      if j == 0 {
        assert IsRootNode(nodes[chain[0]]) && !IsRootNode(nodes[c]);
      } else {
        assert chain[j - 1] != Last(chain);
        assert NodeId(nodes[chain[j - 1]]) != NodeId(nodes[Last(chain)]);
        assert ParentId(nodes[chain[j]]) != ParentId(nodes[c]);
      }
    }
  }

  lemma ExtendChain(nodes: seq<Json>, chain: seq<nat>, c: nat)
    requires DistinctIds(nodes) && WellChain(nodes, chain) && ChildOf(nodes, c, Last(chain))
    ensures WellChain(nodes, chain + [c])
  {
    NotOnChain(nodes, chain, c);
  }

  /** The nodes not yet on the path: the traversal's termination measure. */
  function Unvisited(nodes: seq<Json>, chain: seq<nat>): set<nat> {
    Below(|nodes|) - (set k | k in chain)
  }

  /** The indices below `n`. */
  function Below(n: nat): (r: set<nat>)
    ensures forall i :: i in r <==> 0 <= i < n
  {
    if n == 0 then {} else Below(n - 1) + {n - 1}
  }

  lemma UnvisitedShrinks(nodes: seq<Json>, chain: seq<nat>, c: nat)
    requires c < |nodes| && c !in chain
    ensures Unvisited(nodes, chain + [c]) < Unvisited(nodes, chain)
  {
    assert c in Unvisited(nodes, chain);
  }

  // ---------------------------------------------------------------------
  // The traversal, as (node, depth) visits
  // ---------------------------------------------------------------------

  /** `add_node` on the path's last node: itself at depth |chain| - 1, then
      the subtrees of its children in index order. */
  function Visit(nodes: seq<Json>, chain: seq<nat>): seq<(nat, nat)>
    requires DistinctIds(nodes) && WellChain(nodes, chain)
    decreases Unvisited(nodes, chain), 1, 0
  {
    var last := Last(chain);
    var kids := Kids(ChildIndex(nodes, |nodes|), NodeId(nodes[last]));
    ChildIndexSound(nodes, |nodes|, NodeId(nodes[last]));
    [(last, |chain| - 1)] + VisitKids(nodes, chain, kids, 0)
  }

  /** The subtrees of `kids[k..]`, children of the path's last node. */
  function VisitKids(nodes: seq<Json>, chain: seq<nat>, kids: seq<nat>, k: nat): seq<(nat, nat)>
    requires DistinctIds(nodes) && WellChain(nodes, chain) && k <= |kids|
    requires forall j :: 0 <= j < |kids| ==> ChildOf(nodes, kids[j], Last(chain))
    decreases Unvisited(nodes, chain), 0, |kids| - k
  {
    if k == |kids| then []
    else
      NotOnChain(nodes, chain, kids[k]);
      ExtendChain(nodes, chain, kids[k]);
      UnvisitedShrinks(nodes, chain, kids[k]);
      Visit(nodes, chain + [kids[k]]) + VisitKids(nodes, chain, kids, k + 1)
  }

  /** A root alone is a path. */
  lemma RootChain(nodes: seq<Json>, r: nat)
    requires r < |nodes| && IsRootNode(nodes[r])
    ensures WellChain(nodes, [r])
  {
  }

  /** The trees of `roots[k..]`. */
  function VisitRoots(nodes: seq<Json>, roots: seq<nat>, k: nat): seq<(nat, nat)>
    requires DistinctIds(nodes) && k <= |roots|
    requires forall j :: 0 <= j < |roots| ==> roots[j] < |nodes| && IsRootNode(nodes[roots[j]])
    decreases |roots| - k
  {
    if k == |roots| then []
    else
      RootChain(nodes, roots[k]);
      Visit(nodes, [roots[k]]) + VisitRoots(nodes, roots, k + 1)
  }

  /** Every visit of the outline, in emission order. */
  function MindMapVisits(nodes: seq<Json>): seq<(nat, nat)>
    requires DistinctIds(nodes)
  {
    RootIndexSound(nodes, |nodes|);
    VisitRoots(nodes, RootIndex(nodes, |nodes|), 0)
  }

  // ---------------------------------------------------------------------
  // Each node is emitted at most once
  // ---------------------------------------------------------------------

  /** The first dictionary node at or after `i` whose id is `id`. */
  function FindId(nodes: seq<Json>, id: Json, i: nat): (r: Option<nat>)
    requires i <= |nodes|
    ensures r.Some? ==> r.value < |nodes|
    decreases |nodes| - i
  {
    if i == |nodes| then None
    else if nodes[i].JObj? && NodeId(nodes[i]) == id then Some(i)
    else FindId(nodes, id, i + 1)
  }

  /** The node a node hangs under: the node whose id is its parent id (a
      root is its own parent), or itself when there is none. */
  function Par(nodes: seq<Json>, v: nat): (p: nat)
    requires v < |nodes|
    ensures p < |nodes|
  {
    match FindId(nodes, ParentId(nodes[v]), 0)
    case Some(p) => p
    case None => v
  }

  /** `k` steps up from `v`. */
  function Up(nodes: seq<Json>, v: nat, k: nat): (u: nat)
    requires v < |nodes|
    ensures u < |nodes|
    decreases k
  {
    if k == 0 then v else Up(nodes, Par(nodes, v), k - 1)
  }

  lemma {:induction false} FindIdOf(nodes: seq<Json>, p: nat, i: nat)
    requires DistinctIds(nodes) && p < |nodes| && nodes[p].JObj? && i <= p
    ensures FindId(nodes, NodeId(nodes[p]), i) == Some(p)
    decreases p - i
  {
    if i < p {
      assert !(nodes[i].JObj? && NodeId(nodes[i]) == NodeId(nodes[p]));
      FindIdOf(nodes, p, i + 1);
    }
  }

  lemma ParOfChild(nodes: seq<Json>, c: nat, p: nat)
    requires DistinctIds(nodes) && ChildOf(nodes, c, p) && nodes[p].JObj?
    ensures Par(nodes, c) == p
  {
    FindIdOf(nodes, p, 0);
  }

  lemma ParOfRoot(nodes: seq<Json>, r: nat)
    requires DistinctIds(nodes) && r < |nodes| && IsRootNode(nodes[r])
    ensures Par(nodes, r) == r
  {
    FindIdOf(nodes, r, 0);
  }

  lemma {:induction false} UpAdd(nodes: seq<Json>, v: nat, a: nat, b: nat)
    requires v < |nodes|
    ensures Up(nodes, v, a + b) == Up(nodes, Up(nodes, v, a), b)
    decreases a
  {
    if a > 0 {
      UpAdd(nodes, Par(nodes, v), a - 1, b);
    }
  }

  /** Going up from a node on a path stays on the path. */
  lemma {:induction false} UpChain(nodes: seq<Json>, chain: seq<nat>, k: nat, m: nat)
    requires DistinctIds(nodes) && WellChain(nodes, chain) && k < |chain|
    ensures Up(nodes, chain[k], m) in chain
    decreases m
  {
    if m > 0 {
      if k == 0 {
        ParOfRoot(nodes, chain[0]);
        UpChain(nodes, chain, 0, m - 1);
      } else {
        ParOfChild(nodes, chain[k], chain[k - 1]);
        UpChain(nodes, chain, k - 1, m - 1);
      }
    }
  }

  /** No node of the path is a child of the path's last node. */
  lemma ChainNoChild(nodes: seq<Json>, chain: seq<nat>, j: nat)
    requires DistinctIds(nodes) && WellChain(nodes, chain) && j < |chain|
    ensures !ChildOf(nodes, chain[j], Last(chain))
  {
    if j > 0 {
      assert chain[j - 1] != Last(chain);
      assert NodeId(nodes[chain[j - 1]]) != NodeId(nodes[Last(chain)]);
    }
  }

  /** Going up from a node on the path never reaches a child of its last node. */
  lemma UpChainNoChild(nodes: seq<Json>, chain: seq<nat>, k: nat, m: nat)
    requires DistinctIds(nodes) && WellChain(nodes, chain) && k < |chain|
    ensures !ChildOf(nodes, Up(nodes, chain[k], m), Last(chain))
  {
    UpChain(nodes, chain, k, m);
    var j :| 0 <= j < |chain| && chain[j] == Up(nodes, chain[k], m);
    ChainNoChild(nodes, chain, j);
  }

  /** Above a child of the path's last node, no ancestor is again such a child. */
  lemma AboveChild(nodes: seq<Json>, chain: seq<nat>, v: nat, m1: nat, m2: nat)
    requires DistinctIds(nodes) && WellChain(nodes, chain) && v < |nodes| && m1 < m2
    requires ChildOf(nodes, Up(nodes, v, m1), Last(chain))
    ensures !ChildOf(nodes, Up(nodes, v, m2), Last(chain))
  {
    AboveLast(nodes, chain, v, m1, m2);
    UpChainNoChild(nodes, chain, |chain| - 1, m2 - m1 - 1);
  }

  /** Above a child of the path's last node lies the path's last node. */
  lemma AboveLast(nodes: seq<Json>, chain: seq<nat>, v: nat, m1: nat, m2: nat)
    requires DistinctIds(nodes) && WellChain(nodes, chain) && v < |nodes| && m1 < m2
    requires ChildOf(nodes, Up(nodes, v, m1), Last(chain))
    ensures Up(nodes, v, m2) == Up(nodes, chain[|chain| - 1], m2 - m1 - 1)
  {
    var u := Up(nodes, v, m1);
    UpSplit(nodes, v, m1, m2);
    UpStep(nodes, u, m2 - m1);
    ParOfChild(nodes, u, Last(chain));
  }

  /** Going up `total` steps is going up `a` steps, then the rest. */
  lemma UpSplit(nodes: seq<Json>, v: nat, a: nat, total: nat)
    requires v < |nodes| && a <= total
    ensures Up(nodes, v, total) == Up(nodes, Up(nodes, v, a), total - a)
  {
    UpAdd(nodes, v, a, total - a);
  }

  /** One step up, then the rest. */
  lemma UpStep(nodes: seq<Json>, v: nat, m: nat)
    requires v < |nodes| && m > 0
    ensures Up(nodes, v, m) == Up(nodes, Par(nodes, v), m - 1)
  {
  }

  /** A root is its own ancestor at every distance. */
  lemma {:induction false} UpRoot(nodes: seq<Json>, r: nat, m: nat)
    requires DistinctIds(nodes) && r < |nodes| && IsRootNode(nodes[r])
    ensures Up(nodes, r, m) == r
  {
    if m > 0 {
      ParOfRoot(nodes, r);
      UpRoot(nodes, r, m - 1);
    }
  }

  /** No node appears twice among the visits. */
  predicate DistinctNodes(vs: seq<(nat, nat)>) {
    forall a, b :: 0 <= a < b < |vs| ==> vs[a].0 != vs[b].0
  }

  lemma DistinctConcat(x: seq<(nat, nat)>, y: seq<(nat, nat)>)
    requires DistinctNodes(x) && DistinctNodes(y)
    requires forall a, b :: 0 <= a < |x| && 0 <= b < |y| ==> x[a].0 != y[b].0
    ensures DistinctNodes(x + y)
  {
    var xy := x + y;
    forall a, b | 0 <= a < b < |xy| ensures xy[a].0 != xy[b].0 {
      if b < |x| {
        assert xy[a] == x[a] && xy[b] == x[b];
      } else if a >= |x| {
        assert xy[a] == y[a - |x|] && xy[b] == y[b - |x|];
      } else {
        assert xy[a] == x[a] && xy[b] == y[b - |x|];
      }
    }
  }

  /** Each visit of a subtree is a dictionary node below the path's last
      node, `depth - (|chain| - 1)` steps under it. */
  /** Each visit is a dictionary node `depth - base` steps below `top`. */
  predicate Under(nodes: seq<Json>, vs: seq<(nat, nat)>, top: nat, base: nat) {
    forall i :: 0 <= i < |vs| ==>
      vs[i].0 < |nodes| && nodes[vs[i].0].JObj? && vs[i].1 >= base
      && Up(nodes, vs[i].0, vs[i].1 - base) == top
  }

  /** Each visit is a dictionary node `depth - base` steps below one of `tops`. */
  predicate UnderAny(nodes: seq<Json>, vs: seq<(nat, nat)>, tops: seq<nat>, base: nat) {
    forall i :: 0 <= i < |vs| ==>
      vs[i].0 < |nodes| && nodes[vs[i].0].JObj? && vs[i].1 >= base
      && Up(nodes, vs[i].0, vs[i].1 - base) in tops
  }

  lemma UnderCons(nodes: seq<Json>, head: (nat, nat), vs: seq<(nat, nat)>, top: nat, base: nat)
    requires head.0 < |nodes| && nodes[head.0].JObj? && head.1 >= base
    requires Up(nodes, head.0, head.1 - base) == top
    requires Under(nodes, vs, top, base)
    ensures Under(nodes, [head] + vs, top, base)
  {
    var hv := [head] + vs;
    assert forall i :: 1 <= i < |hv| ==> hv[i] == vs[i - 1];
  }

  lemma UnderHead(nodes: seq<Json>, vs: seq<(nat, nat)>, tops: seq<nat>, base: nat)
    requires tops != [] && Under(nodes, vs, tops[0], base)
    ensures UnderAny(nodes, vs, tops, base)
  {
  }

  lemma UnderTail(nodes: seq<Json>, vs: seq<(nat, nat)>, tops: seq<nat>, base: nat)
    requires tops != [] && UnderAny(nodes, vs, tops[1..], base)
    ensures UnderAny(nodes, vs, tops, base)
  {
    forall i | 0 <= i < |vs| ensures Up(nodes, vs[i].0, vs[i].1 - base) in tops {
      assert Up(nodes, vs[i].0, vs[i].1 - base) in tops[1..];
    }
  }

  lemma UnderAnyConcat(nodes: seq<Json>, x: seq<(nat, nat)>, y: seq<(nat, nat)>, tops: seq<nat>, base: nat)
    requires UnderAny(nodes, x, tops, base) && UnderAny(nodes, y, tops, base)
    ensures UnderAny(nodes, x + y, tops, base)
  {
    var xy := x + y;
    assert forall i :: |x| <= i < |xy| ==> xy[i] == y[i - |x|];
  }

  lemma IncreasingHead(s: seq<nat>, k: nat)
    requires Increasing(s) && k < |s|
    ensures s[k] !in s[k + 1..] && s[k + 1..] == s[k..][1..] && s[k..][0] == s[k]
  {
    var t := s[k + 1..];
    forall j | 0 <= j < |t| ensures t[j] != s[k] {
      assert t[j] == s[k + 1 + j];
    }
  }

  /** Below children of the path's last node means below the last node, and
      never the last node itself. */
  lemma KidsUnder(nodes: seq<Json>, chain: seq<nat>, kids: seq<nat>, vs: seq<(nat, nat)>)
    requires DistinctIds(nodes) && WellChain(nodes, chain)
    requires forall j :: 0 <= j < |kids| ==> ChildOf(nodes, kids[j], Last(chain))
    requires UnderAny(nodes, vs, kids, |chain|)
    ensures Under(nodes, vs, Last(chain), |chain| - 1)
    ensures forall i :: 0 <= i < |vs| ==> vs[i].0 != Last(chain)
  {
    forall i | 0 <= i < |vs|
      ensures Up(nodes, vs[i].0, vs[i].1 - (|chain| - 1)) == Last(chain)
      ensures vs[i].0 != Last(chain)
    {
      KidUnder(nodes, chain, kids, vs[i].0, vs[i].1);
    }
  }

  /** One visit below a child of the path's last node. */
  lemma KidUnder(nodes: seq<Json>, chain: seq<nat>, kids: seq<nat>, v: nat, depth: nat)
    requires DistinctIds(nodes) && WellChain(nodes, chain)
    requires forall j :: 0 <= j < |kids| ==> ChildOf(nodes, kids[j], Last(chain))
    requires v < |nodes| && nodes[v].JObj? && depth >= |chain| && Up(nodes, v, depth - |chain|) in kids
    ensures Up(nodes, v, depth - (|chain| - 1)) == Last(chain)
    ensures v != Last(chain)
  {
    var m := depth - |chain|;
    var u := Up(nodes, v, m);
    UpAdd(nodes, v, m, 1);
    ParOfChild(nodes, u, Last(chain));
    UpChainNoChild(nodes, chain, |chain| - 1, m);
  }

  /** The subtree of one child and those of other children share no node. */
  lemma CrossKids(nodes: seq<Json>, chain: seq<nat>, c: nat, tops: seq<nat>,
                  sub: seq<(nat, nat)>, rest: seq<(nat, nat)>)
    requires DistinctIds(nodes) && WellChain(nodes, chain)
    requires ChildOf(nodes, c, Last(chain)) && c !in tops
    requires forall j :: 0 <= j < |tops| ==> ChildOf(nodes, tops[j], Last(chain))
    requires Under(nodes, sub, c, |chain|) && UnderAny(nodes, rest, tops, |chain|)
    ensures forall a, b :: 0 <= a < |sub| && 0 <= b < |rest| ==> sub[a].0 != rest[b].0
  {
    forall a, b | 0 <= a < |sub| && 0 <= b < |rest| ensures sub[a].0 != rest[b].0 {
      CrossKidPair(nodes, chain, c, tops, sub[a].0, sub[a].1 - |chain|, rest[b].0, rest[b].1 - |chain|);
    }
  }

  /** A node `m1` steps below child `c` is not a node `m2` steps below one of
      the other children. */
  lemma CrossKidPair(nodes: seq<Json>, chain: seq<nat>, c: nat, tops: seq<nat>, v1: nat, m1: nat, v2: nat, m2: nat)
    requires DistinctIds(nodes) && WellChain(nodes, chain)
    requires ChildOf(nodes, c, Last(chain)) && c !in tops
    requires forall j :: 0 <= j < |tops| ==> ChildOf(nodes, tops[j], Last(chain))
    requires v1 < |nodes| && Up(nodes, v1, m1) == c
    requires v2 < |nodes| && Up(nodes, v2, m2) in tops
    ensures v1 != v2
  {
    var u2 := Up(nodes, v2, m2);
    var j :| 0 <= j < |tops| && tops[j] == u2;
    if m1 < m2 {
      AboveChild(nodes, chain, v1, m1, m2);
    } else if m2 < m1 {
      AboveChild(nodes, chain, v2, m2, m1);
    }
  }

  /** The trees of two different roots share no node. */
  lemma CrossRoots(nodes: seq<Json>, r: nat, tops: seq<nat>,
                   tree: seq<(nat, nat)>, rest: seq<(nat, nat)>)
    requires DistinctIds(nodes) && r < |nodes| && IsRootNode(nodes[r]) && r !in tops
    requires forall j :: 0 <= j < |tops| ==> tops[j] < |nodes| && IsRootNode(nodes[tops[j]])
    requires Under(nodes, tree, r, 0) && UnderAny(nodes, rest, tops, 0)
    ensures forall a, b :: 0 <= a < |tree| && 0 <= b < |rest| ==> tree[a].0 != rest[b].0
  {
    forall a, b | 0 <= a < |tree| && 0 <= b < |rest| ensures tree[a].0 != rest[b].0 {
      CrossRootPair(nodes, r, tops, tree[a].0, tree[a].1, rest[b].0, rest[b].1);
    }
  }

  /** A node `d1` steps below root `r` is not a node `d2` steps below one of
      the other roots. */
  lemma CrossRootPair(nodes: seq<Json>, r: nat, tops: seq<nat>, v1: nat, d1: nat, v2: nat, d2: nat)
    requires DistinctIds(nodes) && r < |nodes| && IsRootNode(nodes[r]) && r !in tops
    requires forall j :: 0 <= j < |tops| ==> tops[j] < |nodes| && IsRootNode(nodes[tops[j]])
    requires v1 < |nodes| && nodes[v1].JObj? && Up(nodes, v1, d1) == r
    requires v2 < |nodes| && nodes[v2].JObj? && Up(nodes, v2, d2) in tops
    ensures v1 != v2
  {
    var u2 := Up(nodes, v2, d2);
    var j :| 0 <= j < |tops| && tops[j] == u2;
    if d1 <= d2 {
      RootAbove(nodes, r, v1, d1, d2);
    } else {
      RootAbove(nodes, u2, v2, d2, d1);
    }
  }

  /** Above its root, a node's ancestor stays that root. */
  lemma RootAbove(nodes: seq<Json>, r: nat, v: nat, d: nat, e: nat)
    requires DistinctIds(nodes) && r < |nodes| && IsRootNode(nodes[r])
    requires v < |nodes| && Up(nodes, v, d) == r && d <= e
    ensures Up(nodes, v, e) == r
  {
    UpAdd(nodes, v, d, e - d);
    UpRoot(nodes, r, e - d);
  }

  lemma {:induction false} VisitFacts(nodes: seq<Json>, chain: seq<nat>)
    requires DistinctIds(nodes) && WellChain(nodes, chain)
    ensures Under(nodes, Visit(nodes, chain), Last(chain), |chain| - 1)
    ensures DistinctNodes(Visit(nodes, chain))
    decreases Unvisited(nodes, chain), 1, 0
  {
    var last := Last(chain);
    var kids := Kids(ChildIndex(nodes, |nodes|), NodeId(nodes[last]));
    ChildIndexSound(nodes, |nodes|, NodeId(nodes[last]));
    var rest := VisitKids(nodes, chain, kids, 0);
    VisitKidsFacts(nodes, chain, kids, 0);
    assert kids[0..] == kids;
    NodeThenKids(nodes, chain, kids, rest);
    assert Visit(nodes, chain) == [(last, |chain| - 1)] + rest;
  }

  /** The path's last node followed by visits below its children. */
  lemma NodeThenKids(nodes: seq<Json>, chain: seq<nat>, kids: seq<nat>, rest: seq<(nat, nat)>)
    requires DistinctIds(nodes) && WellChain(nodes, chain)
    requires forall j :: 0 <= j < |kids| ==> ChildOf(nodes, kids[j], Last(chain))
    requires UnderAny(nodes, rest, kids, |chain|) && DistinctNodes(rest)
    ensures Under(nodes, [(Last(chain), |chain| - 1)] + rest, Last(chain), |chain| - 1)
    ensures DistinctNodes([(Last(chain), |chain| - 1)] + rest)
  {
    var last := Last(chain);
    KidsUnder(nodes, chain, kids, rest);
    UnderCons(nodes, (last, |chain| - 1), rest, last, |chain| - 1);
    DistinctConcat([(last, |chain| - 1)], rest);
  }

  lemma {:induction false} VisitKidsFacts(nodes: seq<Json>, chain: seq<nat>, kids: seq<nat>, k: nat)
    requires DistinctIds(nodes) && WellChain(nodes, chain) && k <= |kids| && Increasing(kids)
    requires forall j :: 0 <= j < |kids| ==> ChildOf(nodes, kids[j], Last(chain))
    ensures UnderAny(nodes, VisitKids(nodes, chain, kids, k), kids[k..], |chain|)
    ensures DistinctNodes(VisitKids(nodes, chain, kids, k))
    decreases Unvisited(nodes, chain), 0, |kids| - k
  {
    if k < |kids| {
      var c := kids[k];
      NotOnChain(nodes, chain, c);
      ExtendChain(nodes, chain, c);
      UnvisitedShrinks(nodes, chain, c);
      var sub := Visit(nodes, chain + [c]);
      var rest := VisitKids(nodes, chain, kids, k + 1);
      VisitFacts(nodes, chain + [c]);
      VisitKidsFacts(nodes, chain, kids, k + 1);
      assert Last(chain + [c]) == c;
      IncreasingHead(kids, k);
      CrossKids(nodes, chain, c, kids[k + 1..], sub, rest);
      DistinctConcat(sub, rest);
      UnderHead(nodes, sub, kids[k..], |chain|);
      UnderTail(nodes, rest, kids[k..], |chain|);
      UnderAnyConcat(nodes, sub, rest, kids[k..], |chain|);
      assert VisitKids(nodes, chain, kids, k) == sub + rest;
    }
  }

  lemma {:induction false} VisitRootsFacts(nodes: seq<Json>, roots: seq<nat>, k: nat)
    requires DistinctIds(nodes) && k <= |roots| && Increasing(roots)
    requires forall j :: 0 <= j < |roots| ==> roots[j] < |nodes| && IsRootNode(nodes[roots[j]])
    ensures UnderAny(nodes, VisitRoots(nodes, roots, k), roots[k..], 0)
    ensures DistinctNodes(VisitRoots(nodes, roots, k))
    decreases |roots| - k
  {
    if k < |roots| {
      var r := roots[k];
      RootChain(nodes, r);
      var tree := Visit(nodes, [r]);
      var rest := VisitRoots(nodes, roots, k + 1);
      VisitFacts(nodes, [r]);
      VisitRootsFacts(nodes, roots, k + 1);
      TreeThenRoots(nodes, roots, k, tree, rest);
      assert VisitRoots(nodes, roots, k) == tree + rest;
    }
  }

  /** The tree of root `k` followed by the trees of the later roots. */
  lemma TreeThenRoots(nodes: seq<Json>, roots: seq<nat>, k: nat, tree: seq<(nat, nat)>, rest: seq<(nat, nat)>)
    requires DistinctIds(nodes) && k < |roots| && Increasing(roots)
    requires forall j :: 0 <= j < |roots| ==> roots[j] < |nodes| && IsRootNode(nodes[roots[j]])
    requires Under(nodes, tree, roots[k], 0) && DistinctNodes(tree)
    requires UnderAny(nodes, rest, roots[k + 1..], 0) && DistinctNodes(rest)
    ensures UnderAny(nodes, tree + rest, roots[k..], 0) && DistinctNodes(tree + rest)
  {
    IncreasingHead(roots, k);
    CrossRoots(nodes, roots[k], roots[k + 1..], tree, rest);
    DistinctConcat(tree, rest);
    UnderHead(nodes, tree, roots[k..], 0);
    UnderTail(nodes, rest, roots[k..], 0);
    UnderAnyConcat(nodes, tree, rest, roots[k..], 0);
  }

  /** With distinct ids the flattened outline emits each node at most once,
      only dictionary nodes, and each at its distance below a root. */
  lemma MindMapEachNodeOnce(nodes: seq<Json>)
    requires DistinctIds(nodes)
    ensures DistinctNodes(MindMapVisits(nodes))
    ensures forall i :: 0 <= i < |MindMapVisits(nodes)| ==>
      var v := MindMapVisits(nodes)[i];
      v.0 < |nodes| && nodes[v.0].JObj? && IsRootNode(nodes[Up(nodes, v.0, v.1)])
  {
    var roots := RootIndex(nodes, |nodes|);
    RootIndexSound(nodes, |nodes|);
    VisitRootsFacts(nodes, roots, 0);
    assert roots[0..] == roots;
    var vs := MindMapVisits(nodes);
    forall i | 0 <= i < |vs| ensures IsRootNode(nodes[Up(nodes, vs[i].0, vs[i].1)]) {
      assert Up(nodes, vs[i].0, vs[i].1 - 0) in roots;
    }
  }

  // ---------------------------------------------------------------------
  // Blocks
  // ---------------------------------------------------------------------

  const Arrow := "\U{21B3} "

  /** Four spaces per level. */
  function Indent(levels: nat): (r: string)
    ensures |r| == 4 * levels && forall i :: 0 <= i < |r| ==> r[i] == ' '
  {
    if levels == 0 then [] else "    " + Indent(levels - 1)
  }

  /** The block for a node at a depth: bold title at the root, indented arrow
      and title below it. The title is not truncated. */
  function NodeBlock(node: Json, depth: nat): (b: Block)
    ensures b.Bullet? && |b.text| == 1 && b.text[0].link.None?
    ensures depth == 0 ==>
      b.text[0].content == NodeTitle(node) && b.text[0].annotations == Some(Annotations(true, false, "default"))
    ensures depth > 0 ==>
      b.text[0].annotations.None? && b.text[0].content == Indent(depth - 1) + Arrow + NodeTitle(node)
  {
    if depth == 0 then Bullet([RichText(NodeTitle(node), None, Some(Annotations(true, false, "default")))])
    else Bullet([RichText(Indent(depth - 1) + Arrow + NodeTitle(node), None, None)])
  }

  function VisitBlock(nodes: seq<Json>, v: (nat, nat)): Block {
    NodeBlock(if v.0 < |nodes| then nodes[v.0] else JNull, v.1)
  }

  function Render(nodes: seq<Json>, vs: seq<(nat, nat)>): (r: seq<Block>)
    ensures |r| == |vs| && forall i :: 0 <= i < |vs| ==> r[i] == VisitBlock(nodes, vs[i])
  {
    seq(|vs|, i requires 0 <= i < |vs| => VisitBlock(nodes, vs[i]))
  }

  lemma RenderAppend(nodes: seq<Json>, a: seq<(nat, nat)>, b: seq<(nat, nat)>)
    ensures Render(nodes, a + b) == Render(nodes, a) + Render(nodes, b)
  {
  }

  /** The blocks `_build_mind_map_tree` returns. */
  function MindMapBlocks(nodes: seq<Json>): seq<Block>
    requires DistinctIds(nodes)
  {
    Render(nodes, MindMapVisits(nodes))
  }

  // ---------------------------------------------------------------------
  // The imperative traversal
  // ---------------------------------------------------------------------

  /** `_build_mind_map_tree()`: index the nodes, then emit each root's tree. */
  method BuildMindMapTree(nodes: seq<Json>) returns (blocks: seq<Block>)
    requires DistinctIds(nodes)
    ensures blocks == MindMapBlocks(nodes)
  {
    if nodes == [] {
      return [];
    }
    var children, roots := IndexNodes(nodes);
    RootIndexSound(nodes, |nodes|);
    blocks := [];
    var j := 0;
    while j < |roots|
      invariant j <= |roots|
      invariant blocks + Render(nodes, VisitRoots(nodes, roots, j)) == MindMapBlocks(nodes)
    {
      var sub := AddNode(nodes, children, [roots[j]]);
      RootsStep(nodes, roots, j, blocks, MindMapBlocks(nodes));
      blocks := blocks + sub;
      j := j + 1;
    }
    assert blocks + [] == blocks;
  }

  /** The first loop of `_build_mind_map_tree()`: the children index and the
      roots, in node order. */
  method IndexNodes(nodes: seq<Json>) returns (children: map<Json, seq<nat>>, roots: seq<nat>)
    ensures children == ChildIndex(nodes, |nodes|) && roots == RootIndex(nodes, |nodes|)
  {
    children, roots := map[], [];
    var k := 0;
    while k < |nodes|
      invariant k <= |nodes|
      invariant children == ChildIndex(nodes, k) && roots == RootIndex(nodes, k)
    {
      var node := nodes[k];
      if node.JObj? {
        var nodeId := NodeId(node);
        var parentId := ParentId(node);
        if nodeId == parentId {
          roots := roots + [k];
        } else {
          children := children[parentId := Kids(children, parentId) + [k]];
        }
      }
      k := k + 1;
    }
  }

  /** `add_node(node, depth)` for the last node of `chain`, at depth |chain| - 1. */
  method AddNode(nodes: seq<Json>, children: map<Json, seq<nat>>, chain: seq<nat>) returns (out: seq<Block>)
    requires DistinctIds(nodes) && WellChain(nodes, chain) && children == ChildIndex(nodes, |nodes|)
    ensures out == Render(nodes, Visit(nodes, chain))
    decreases Unvisited(nodes, chain)
  {
    var last := Last(chain);
    var node := nodes[last];
    out := [NodeBlock(node, |chain| - 1)];
    var kids := Kids(children, NodeId(node));
    ChildIndexSound(nodes, |nodes|, NodeId(node));
    HeadStep(nodes, chain, kids);
    var j := 0;
    while j < |kids|
      invariant j <= |kids|
      invariant out + Render(nodes, VisitKids(nodes, chain, kids, j)) == Render(nodes, Visit(nodes, chain))
    {
      NotOnChain(nodes, chain, kids[j]);
      ExtendChain(nodes, chain, kids[j]);
      UnvisitedShrinks(nodes, chain, kids[j]);
      var sub := AddNode(nodes, children, chain + [kids[j]]);
      KidsStep(nodes, chain, kids, j, out, Render(nodes, Visit(nodes, chain)));
      out := out + sub;
      j := j + 1;
    }
    assert out + [] == out;
  }

  /** The node's own block comes first. */
  lemma HeadStep(nodes: seq<Json>, chain: seq<nat>, kids: seq<nat>)
    requires DistinctIds(nodes) && WellChain(nodes, chain)
    requires kids == Kids(ChildIndex(nodes, |nodes|), NodeId(nodes[Last(chain)]))
    requires forall i :: 0 <= i < |kids| ==> ChildOf(nodes, kids[i], Last(chain))
    ensures [NodeBlock(nodes[Last(chain)], |chain| - 1)] + Render(nodes, VisitKids(nodes, chain, kids, 0))
      == Render(nodes, Visit(nodes, chain))
  {
    RenderAppend(nodes, [(Last(chain), |chain| - 1)], VisitKids(nodes, chain, kids, 0));
  }

  /** The loop over the children keeps its invariant. */
  lemma KidsStep(nodes: seq<Json>, chain: seq<nat>, kids: seq<nat>, j: nat, out: seq<Block>, total: seq<Block>)
    requires DistinctIds(nodes) && WellChain(nodes, chain) && j < |kids|
    requires forall i :: 0 <= i < |kids| ==> ChildOf(nodes, kids[i], Last(chain))
    requires WellChain(nodes, chain + [kids[j]])
    requires out + Render(nodes, VisitKids(nodes, chain, kids, j)) == total
    ensures (out + Render(nodes, Visit(nodes, chain + [kids[j]]))) + Render(nodes, VisitKids(nodes, chain, kids, j + 1)) == total
  {
    var a := Visit(nodes, chain + [kids[j]]);
    var b := VisitKids(nodes, chain, kids, j + 1);
    RenderAppend(nodes, a, b);
    AppendAssoc(out, Render(nodes, a), Render(nodes, b));
  }

  /** The loop over the roots keeps its invariant. */
  lemma RootsStep(nodes: seq<Json>, roots: seq<nat>, j: nat, blocks: seq<Block>, total: seq<Block>)
    requires DistinctIds(nodes) && j < |roots|
    requires forall i :: 0 <= i < |roots| ==> roots[i] < |nodes| && IsRootNode(nodes[roots[i]])
    requires blocks + Render(nodes, VisitRoots(nodes, roots, j)) == total
    ensures (blocks + Render(nodes, Visit(nodes, [roots[j]]))) + Render(nodes, VisitRoots(nodes, roots, j + 1)) == total
  {
    var a := Visit(nodes, [roots[j]]);
    var b := VisitRoots(nodes, roots, j + 1);
    RenderAppend(nodes, a, b);
    AppendAssoc(blocks, Render(nodes, a), Render(nodes, b));
  }
}
