/** ToDot: the nodes that a size-limited drawing of the tree keeps, and their numbering. */
module DotPruning {
  import opened Sequences
  import opened FlameBars
  import opened FlameLayout

  // ----- the threshold

  /** The totals of all nodes of the tree in column c, in the order they were met: pairs lists
      each place (parent, child number) once. */
  ghost predicate Lists(nodes: Nodes, c: nat, pairs: seq<(nat, nat)>, totals: seq<int>) {
    && |pairs| == |totals|
    && (forall k :: 0 <= k < |pairs| ==>
          var p, i := pairs[k].0, pairs[k].1;
          p in nodes && i < |nodes[p]| && totals[k] == Total(nodes[p][i], c))
    && (forall p, i: nat :: p in nodes && i < |nodes[p]| ==> (p, i) in pairs)
    && (forall j, k :: 0 <= j < k < |pairs| ==> pairs[j] != pairs[k])
  }

  method CollectTotals(nodes: Nodes, c: nat) returns (totals: seq<int>, ghost pairs: seq<(nat, nat)>)
    ensures Lists(nodes, c, pairs, totals)
  {
    totals, pairs := [], [];
    var keys := nodes.Keys;
    ghost var done: Nodes := map[];
    while keys != {}
      invariant keys <= nodes.Keys && done.Keys == nodes.Keys - keys
      invariant forall p :: p in done ==> done[p] == nodes[p]
      invariant Lists(done, c, pairs, totals)
      decreases keys
    {
      var key :| key in keys;
      var children := nodes[key];
      ghost var totals0, pairs0 := totals, pairs;
      for i := 0 to |children|
        invariant |pairs| == |pairs0| + i && pairs0 == pairs[..|pairs0|]
        invariant forall k :: 0 <= k < i ==> pairs[|pairs0| + k] == (key, k)
        invariant |totals| == |pairs| && totals0 == totals[..|totals0|]
        invariant forall k :: 0 <= k < i ==> totals[|totals0| + k] == Total(children[k], c)
      {
        totals, pairs := totals + [Total(children[i], c)], pairs + [(key, i)];
      }
      ListsMore(done, c, pairs0, totals0, key, children, pairs, totals);
      done := done[key := children];
      keys := keys - {key};
    }
    assert done == nodes;
  }

  lemma {:induction false} ListsMore(done: Nodes, c: nat, pairs0: seq<(nat, nat)>, totals0: seq<int>,
                                     key: nat, children: seq<Node>, pairs: seq<(nat, nat)>, totals: seq<int>)
    requires Lists(done, c, pairs0, totals0) && key !in done
    requires |pairs| == |pairs0| + |children| == |totals| && pairs0 <= pairs && totals0 <= totals
    requires forall k :: 0 <= k < |children| ==>
      pairs[|pairs0| + k] == (key, k) && totals[|totals0| + k] == Total(children[k], c)
    ensures Lists(done[key := children], c, pairs, totals)
  {
    var now := done[key := children];
    forall p, i: nat | p in now && i < |now[p]| ensures (p, i) in pairs {
      if p == key {
        assert pairs[|pairs0| + i] == (p, i);
      } else {
        assert (p, i) in pairs0;
        var k :| 0 <= k < |pairs0| && pairs0[k] == (p, i);
        assert pairs[k] == (p, i);
      }
    }
    forall k | 0 <= k < |pairs|
      ensures var p, i := pairs[k].0, pairs[k].1;
              p in now && i < |now[p]| && totals[k] == Total(now[p][i], c)
    {
      if k >= |pairs0| {
        assert pairs[|pairs0| + (k - |pairs0|)] == (key, k - |pairs0|);
      } else {
        assert pairs[k] == pairs0[k] && totals[k] == totals0[k];
      }
    }
    forall j, k | 0 <= j < k < |pairs| ensures pairs[j] != pairs[k] {
      if k < |pairs0| {
        assert pairs[j] == pairs0[j] && pairs[k] == pairs0[k];
      } else {
        assert pairs[|pairs0| + (k - |pairs0|)] == (key, k - |pairs0|);
        if j < |pairs0| {
          assert pairs[j] == pairs0[j];
        } else {
          assert pairs[|pairs0| + (j - |pairs0|)] == (key, j - |pairs0|);
        }
      }
    }
  }

  ghost predicate Descending(s: seq<int>) {
    forall i, j :: 0 <= i < j < |s| ==> s[i] >= s[j]
  }

  method InsertDescending(s: seq<int>, x: int) returns (r: seq<int>)
    requires Descending(s)
    ensures Descending(r) && multiset(r) == multiset(s) + multiset{x}
  {
    var k := 0;
    while k < |s| && s[k] >= x
      invariant k <= |s| && forall m :: 0 <= m < k ==> s[m] >= x
    {
      k := k + 1;
    }
    assert s == s[..k] + s[k..];
    r := s[..k] + [x] + s[k..];
  }

  method SortDescending(s: seq<int>) returns (r: seq<int>)
    ensures Descending(r) && multiset(r) == multiset(s)
  {
    r := [];
    for i := 0 to |s|
      invariant Descending(r) && multiset(r) == multiset(s[..i])
    {
      assert s[..i + 1] == s[..i] + [s[i]];
      r := InsertDescending(r, s[i]);
    }
    assert s[..|s|] == s;
  }

  /** Counts elements above t, or from t on. */
  function Above(t: int): int -> int {
    (x: int) => if x > t then 1 else 0
  }

  function From(t: int): int -> int {
    (x: int) => if x >= t then 1 else 0
  }

  lemma {:induction false} FewAbove(s: seq<int>, m: nat, k: nat)
    requires Descending(s) && 1 <= m <= |s| && k <= |s|
    ensures SumBy(Above(s[m - 1]), s[..k]) <= (if k < m - 1 then k else m - 1)
  {
    if k > 0 {
      FewAbove(s, m, k - 1);
      assert s[..k][..k - 1] == s[..k - 1];
    }
  }

  lemma {:induction false} ManyFrom(s: seq<int>, m: nat, k: nat)
    requires Descending(s) && 1 <= m <= |s| && k <= |s|
    ensures SumBy(From(s[m - 1]), s[..k]) >= (if k < m then k else m)
  {
    if k > 0 {
      ManyFrom(s, m, k - 1);
      assert s[..k][..k - 1] == s[..k - 1];
    }
  }

  /** The places (parent, child number) of the tree whose total f counts. */
  ghost function Places(nodes: Nodes, c: nat, f: int -> int): set<(nat, nat)> {
    set p, i | p in nodes && 0 <= i < |nodes[p]| && f(Total(nodes[p][i], c)) == 1 :: (p, i)
  }

  function Every(): int -> int {
    (x: int) => 1
  }

  ghost function Counted(pairs: seq<(nat, nat)>, totals: seq<int>, f: int -> int): set<(nat, nat)>
    requires |pairs| == |totals|
  {
    set k | 0 <= k < |pairs| && f(totals[k]) == 1 :: pairs[k]
  }

  lemma {:induction false} CountedSize(pairs: seq<(nat, nat)>, totals: seq<int>, f: int -> int)
    requires |pairs| == |totals| && forall x :: f(x) == 0 || f(x) == 1
    requires forall j, k :: 0 <= j < k < |pairs| ==> pairs[j] != pairs[k]
    ensures |Counted(pairs, totals, f)| == SumBy(f, totals)
  {
    if pairs != [] {
      var n := |pairs| - 1;
      var less := Counted(pairs[..n], totals[..n], f);
      CountedSize(pairs[..n], totals[..n], f);
      assert Counted(pairs, totals, f) == less + if f(totals[n]) == 1 then {pairs[n]} else {};
      assert pairs[n] !in less;
    }
  }

  /** Counting the collected totals counts the places of the tree. */
  lemma {:induction false} ListsCount(nodes: Nodes, c: nat, pairs: seq<(nat, nat)>, totals: seq<int>, f: int -> int)
    requires Lists(nodes, c, pairs, totals) && forall x :: f(x) == 0 || f(x) == 1
    ensures |Places(nodes, c, f)| == SumBy(f, totals)
  {
    CountedSize(pairs, totals, f);
    forall p, i | (p, i) in Places(nodes, c, f) ensures (p, i) in Counted(pairs, totals, f) {
      assert (p, i) in pairs;
      var k :| 0 <= k < |pairs| && pairs[k] == (p, i);
      assert totals[k] == Total(nodes[p][i], c);
    }
    forall q | q in Counted(pairs, totals, f) ensures q in Places(nodes, c, f) {
      var k :| 0 <= k < |pairs| && f(totals[k]) == 1 && pairs[k] == q;
    }
    assert Places(nodes, c, f) == Counted(pairs, totals, f);
  }

  lemma {:induction false} EverySum(s: seq<int>)
    ensures SumBy(Every(), s) == |s|
  {
    if s != [] {
      EverySum(s[..|s| - 1]);
    }
  }

  /** A limit is in force when the tree has more nodes than it allows. */
  ghost predicate Limited(nodes: Nodes, c: nat, maxNodes: int) {
    0 < maxNodes < |Places(nodes, c, Every())|
  }

  /** The threshold keeps at least maxNodes nodes, fewer than maxNodes of them above it, and is
      the total of one; it is 0, which keeps everything, when no limit is in force. */
  ghost predicate IsThreshold(nodes: Nodes, c: nat, maxNodes: int, t: int) {
    if Limited(nodes, c, maxNodes) then
      && |Places(nodes, c, Above(t))| < maxNodes && |Places(nodes, c, From(t))| >= maxNodes
      && exists p, i :: p in nodes && 0 <= i < |nodes[p]| && Total(nodes[p][i], c) == t
    else t == 0
  }

  method Threshold(nodes: Nodes, c: nat, maxNodes: int) returns (t: int)
    ensures IsThreshold(nodes, c, maxNodes, t)
  {
    t := 0;
    var all;
    ghost var pairs;
    all, pairs := CollectTotals(nodes, c);
    ListsCount(nodes, c, pairs, all, Every());
    EverySum(all);
    if maxNodes > 0 && |all| > maxNodes {
      var sorted := SortDescending(all);
      assert |multiset(sorted)| == |multiset(all)|;
      t := sorted[maxNodes - 1];
      CutOff(nodes, c, pairs, all, sorted, maxNodes);
    }
  }

  /** The maxNodes-th largest total is a threshold. */
  lemma {:induction false} CutOff(nodes: Nodes, c: nat, pairs: seq<(nat, nat)>, all: seq<int>, sorted: seq<int>, m: nat)
    requires Lists(nodes, c, pairs, all) && Descending(sorted) && multiset(sorted) == multiset(all)
    requires 1 <= m <= |sorted|
    ensures var t := sorted[m - 1];
            && |Places(nodes, c, Above(t))| < m <= |Places(nodes, c, From(t))|
            && exists p, i :: p in nodes && 0 <= i < |nodes[p]| && Total(nodes[p][i], c) == t
  {
    var t := sorted[m - 1];
    FewAbove(sorted, m, |sorted|);
    ManyFrom(sorted, m, |sorted|);
    assert sorted[..|sorted|] == sorted;
    SumByPermutation(Above(t), sorted, all);
    SumByPermutation(From(t), sorted, all);
    ListsCount(nodes, c, pairs, all, Above(t));
    ListsCount(nodes, c, pairs, all, From(t));
    assert t in multiset(all);
    var k :| 0 <= k < |all| && all[k] == t;
    assert Total(nodes[pairs[k].0][pairs[k].1], c) == t;
  }

  // ----- the walk

  predicate Keep(t: int, total: int) {
    t == 0 || total >= t
  }

  /** Nodes from a child of the root downwards. */
  ghost predicate IsPath(nodes: Nodes, path: seq<Node>) {
    && path != [] && path[0] in ChildrenOf(nodes, 0)
    && forall j :: 0 <= j < |path| - 1 ==> path[j + 1] in ChildrenOf(nodes, path[j].nodeId)
  }

  ghost predicate KeptPath(nodes: Nodes, c: nat, t: int, path: seq<Node>) {
    IsPath(nodes, path) && forall j :: 0 <= j < |path| ==> Keep(t, Total(path[j], c))
  }

  /** One node of the drawing: its tree node and the number of the node its edge comes from. */
  datatype Drawn = Drawn(node: Node, from: nat)

  /** Number k + 1 is given to the id of drawn[k]; number 0 is the root's. */
  function IdAt(drawn: seq<Drawn>, k: nat): nat
    requires k <= |drawn|
  {
    if k == 0 then 0 else drawn[k - 1].node.nodeId
  }

  ghost predicate DrawnId(drawn: seq<Drawn>, n: nat, id: nat)
    requires n <= |drawn|
  {
    exists k :: 0 <= k <= n && IdAt(drawn, k) == id
  }

  /** The edge of drawn[k] comes from an earlier number, the one of its parent, and it is kept. */
  ghost predicate EdgeAt(nodes: Nodes, c: nat, t: int, drawn: seq<Drawn>, k: nat)
    requires k < |drawn|
  {
    && drawn[k].from <= k && drawn[k].node in ChildrenOf(nodes, IdAt(drawn, drawn[k].from))
    && Keep(t, Total(drawn[k].node, c))
  }

  /** Each node is drawn once, after and below the node its edge comes from. */
  ghost predicate Drawing(nodes: Nodes, c: nat, t: int, drawn: seq<Drawn>) {
    && (forall j, k :: 0 <= j < k <= |drawn| ==> IdAt(drawn, j) != IdAt(drawn, k))
    && (forall k :: 0 <= k < |drawn| ==> EdgeAt(nodes, c, t, drawn, k))
  }

  /** Every kept child of the first n drawn nodes, root included, is drawn. */
  ghost predicate ClosedTo(nodes: Nodes, c: nat, t: int, drawn: seq<Drawn>, n: nat)
    requires n <= |drawn| + 1
  {
    forall k, m :: 0 <= k < n && m in ChildrenOf(nodes, IdAt(drawn, k)) && Keep(t, Total(m, c)) ==>
      DrawnId(drawn, |drawn|, m.nodeId)
  }

  lemma {:induction false} DrawnMore(drawn: seq<Drawn>, d: Drawn, id: nat)
    requires DrawnId(drawn, |drawn|, id)
    ensures DrawnId(drawn + [d], |drawn| + 1, id)
  {
    var k :| 0 <= k <= |drawn| && IdAt(drawn, k) == id;
    assert IdAt(drawn + [d], k) == id;
  }

  lemma {:induction false} ClosedMore(nodes: Nodes, c: nat, t: int, drawn: seq<Drawn>, d: Drawn, n: nat)
    requires n <= |drawn| + 1 && ClosedTo(nodes, c, t, drawn, n)
    ensures ClosedTo(nodes, c, t, drawn + [d], n)
  {
    var more := drawn + [d];
    forall k, m | 0 <= k < n && m in ChildrenOf(nodes, IdAt(more, k)) && Keep(t, Total(m, c))
      ensures DrawnId(more, |more|, m.nodeId)
    {
      assert IdAt(more, k) == IdAt(drawn, k);
      DrawnMore(drawn, d, m.nodeId);
    }
  }

  lemma {:induction false} DrawingMore(nodes: Nodes, c: nat, t: int, drawn: seq<Drawn>, d: Drawn)
    requires Drawing(nodes, c, t, drawn) && !DrawnId(drawn, |drawn|, d.node.nodeId)
    requires d.from <= |drawn| && d.node in ChildrenOf(nodes, IdAt(drawn, d.from)) && Keep(t, Total(d.node, c))
    ensures Drawing(nodes, c, t, drawn + [d])
  {
    var more := drawn + [d];
    forall k | 0 <= k <= |drawn| ensures IdAt(more, k) == IdAt(drawn, k) {
    }
    forall j, k | 0 <= j < k <= |more| ensures IdAt(more, j) != IdAt(more, k) {
      if k == |more| {
        assert IdAt(drawn, j) != d.node.nodeId;
      } else {
        assert IdAt(more, j) == IdAt(drawn, j) && IdAt(more, k) == IdAt(drawn, k);
      }
    }
    forall k | 0 <= k < |more| ensures EdgeAt(nodes, c, t, more, k) {
      if k < |drawn| {
        assert EdgeAt(nodes, c, t, drawn, k);
      }
      assert IdAt(more, more[k].from) == IdAt(drawn, more[k].from);
    }
  }

  lemma {:induction false} VisitedMore(drawn: seq<Drawn>, d: Drawn, visited: set<nat>)
    requires forall x :: x in visited <==> DrawnId(drawn, |drawn|, x)
    ensures forall x :: x in visited + {d.node.nodeId} <==> DrawnId(drawn + [d], |drawn| + 1, x)
  {
    var more := drawn + [d];
    forall x ensures x in visited + {d.node.nodeId} <==> DrawnId(more, |more|, x) {
      if x in visited {
        DrawnMore(drawn, d, x);
      }
      assert IdAt(more, |more|) == d.node.nodeId;
      if DrawnId(more, |more|, x) && x != d.node.nodeId {
        var k :| 0 <= k <= |more| && IdAt(more, k) == x;
        assert IdAt(drawn, k) == x;
      }
    }
  }

  /** The drawing so far, closed under kept children up to number n, and the ids visited. */
  ghost predicate DrawnTo(nodes: Nodes, c: nat, t: int, drawn: seq<Drawn>, n: nat, visited: set<nat>) {
    && n <= |drawn| + 1 && Drawing(nodes, c, t, drawn) && ClosedTo(nodes, c, t, drawn, n)
    && (forall id :: id in visited <==> DrawnId(drawn, |drawn|, id))
    && visited <= {0} + AllIds(nodes)
  }

  /** The first i children are drawn, unless they are not kept. */
  ghost predicate ChildrenDrawn(c: nat, t: int, children: seq<Node>, i: nat, drawn: seq<Drawn>)
    requires i <= |children|
  {
    forall k :: 0 <= k < i && Keep(t, Total(children[k], c)) ==> DrawnId(drawn, |drawn|, children[k].nodeId)
  }

  lemma {:induction false} DrawOne(nodes: Nodes, c: nat, t: int, drawn: seq<Drawn>, at: nat, visited: set<nat>,
                                   children: seq<Node>, i: nat)
    requires DrawnTo(nodes, c, t, drawn, at, visited) && at <= |drawn|
    requires children == ChildrenOf(nodes, IdAt(drawn, at)) && i < |children|
    requires ChildrenDrawn(c, t, children, i, drawn)
    requires children[i].nodeId !in visited && Keep(t, Total(children[i], c))
    ensures var more := drawn + [Drawn(children[i], at)];
            && DrawnTo(nodes, c, t, more, at, visited + {children[i].nodeId})
            && IdAt(more, at) == IdAt(drawn, at)
            && ChildrenDrawn(c, t, children, i + 1, more)
  {
    var d := Drawn(children[i], at);
    var more := drawn + [d];
    DrawingMore(nodes, c, t, drawn, d);
    ClosedMore(nodes, c, t, drawn, d, at);
    VisitedMore(drawn, d, visited);
    forall k | 0 <= k < i && Keep(t, Total(children[k], c)) ensures DrawnId(more, |more|, children[k].nodeId) {
      DrawnMore(drawn, d, children[k].nodeId);
    }
    assert IdAt(more, |more|) == children[i].nodeId;
    assert nodes[IdAt(drawn, at)][i].nodeId in AllIds(nodes);
  }

  lemma {:induction false} ChildrenClosed(nodes: Nodes, c: nat, t: int, drawn: seq<Drawn>, at: nat, visited: set<nat>,
                                          children: seq<Node>)
    requires DrawnTo(nodes, c, t, drawn, at, visited) && at <= |drawn|
    requires children == ChildrenOf(nodes, IdAt(drawn, at)) && ChildrenDrawn(c, t, children, |children|, drawn)
    ensures DrawnTo(nodes, c, t, drawn, at + 1, visited)
  {
    forall k, m | 0 <= k < at + 1 && m in ChildrenOf(nodes, IdAt(drawn, k)) && Keep(t, Total(m, c))
      ensures DrawnId(drawn, |drawn|, m.nodeId)
    {
      if k == at {
        var i :| 0 <= i < |children| && children[i] == m;
      }
    }
  }

  /** The children of one node: those not seen and kept are drawn. */
  method DrawChildren(nodes: Nodes, c: nat, t: int, drawn: seq<Drawn>, at: nat, visited: set<nat>)
    returns (r: seq<Drawn>, v: set<nat>)
    requires at <= |drawn| && DrawnTo(nodes, c, t, drawn, at, visited)
    ensures |drawn| <= |r| && DrawnTo(nodes, c, t, r, at + 1, v)
    ensures visited <= v && (|r| > |drawn| ==> visited < v)
  {
    r, v := drawn, visited;
    var children := ChildrenOf(nodes, IdAt(drawn, at));
    for i := 0 to |children|
      invariant |drawn| <= |r| && children == ChildrenOf(nodes, IdAt(r, at))
      invariant DrawnTo(nodes, c, t, r, at, v) && ChildrenDrawn(c, t, children, i, r)
      invariant visited <= v && (|r| > |drawn| ==> visited < v)
    {
      var child := children[i];
      if child.nodeId !in v && Keep(t, Total(child, c)) {
        DrawOne(nodes, c, t, r, at, v, children, i);
        r, v := r + [Drawn(child, at)], v + {child.nodeId};
      }
    }
    ChildrenClosed(nodes, c, t, r, at, v, children);
  }

  lemma {:induction false} DrawStart(nodes: Nodes, c: nat, t: int)
    ensures DrawnTo(nodes, c, t, [], 0, {0})
  {
    assert IdAt([], 0) == 0;
  }

  /** The drawing of ToDot: stops on every tree, and draws all it can reach by kept nodes. */
  method Draw(nodes: Nodes, c: nat, t: int) returns (drawn: seq<Drawn>)
    ensures Drawing(nodes, c, t, drawn) && ClosedTo(nodes, c, t, drawn, |drawn| + 1)
  {
    drawn := [];
    var visited, at := {0}, 0;
    DrawStart(nodes, c, t);
    while at <= |drawn|
      invariant DrawnTo(nodes, c, t, drawn, at, visited)
      decreases {0} + AllIds(nodes) - visited, |drawn| + 1 - at
    {
      ghost var before := visited;
      drawn, visited := DrawChildren(nodes, c, t, drawn, at, visited);
      at := at + 1;
    }
  }

  // ----- what is drawn

  lemma {:induction false} PathDrawn(nodes: Nodes, c: nat, t: int, drawn: seq<Drawn>, path: seq<Node>)
    requires ClosedTo(nodes, c, t, drawn, |drawn| + 1) && KeptPath(nodes, c, t, path)
    ensures DrawnId(drawn, |drawn|, path[|path| - 1].nodeId)
  {
    var last := path[|path| - 1];
    if |path| == 1 {
      assert last in ChildrenOf(nodes, IdAt(drawn, 0));
    } else {
      var init := path[..|path| - 1];
      PathDrawn(nodes, c, t, drawn, init);
      var k :| 0 <= k <= |drawn| && IdAt(drawn, k) == init[|init| - 1].nodeId;
      assert path[|path| - 2 + 1] in ChildrenOf(nodes, path[|path| - 2].nodeId);
      assert last in ChildrenOf(nodes, IdAt(drawn, k));
    }
  }

  lemma {:induction false} DrawnHasPath(nodes: Nodes, c: nat, t: int, drawn: seq<Drawn>, k: nat) returns (path: seq<Node>)
    requires Drawing(nodes, c, t, drawn) && k < |drawn|
    ensures KeptPath(nodes, c, t, path) && path[|path| - 1] == drawn[k].node
  {
    assert EdgeAt(nodes, c, t, drawn, k);
    if drawn[k].from == 0 {
      path := [drawn[k].node];
    } else {
      var up := DrawnHasPath(nodes, c, t, drawn, drawn[k].from - 1);
      path := up + [drawn[k].node];
    }
  }

  /** On the way down from the root a child's total never exceeds its parent's. */
  ghost predicate FallingTotals(nodes: Nodes, c: nat) {
    forall path :: IsPath(nodes, path) && |path| >= 2 ==>
      Total(path[|path| - 1], c) <= Total(path[|path| - 2], c)
  }

  lemma {:induction false} PathPrefix(nodes: Nodes, path: seq<Node>, n: nat)
    requires IsPath(nodes, path) && 0 < n <= |path|
    ensures IsPath(nodes, path[..n])
  {
    forall j | 0 <= j < n - 1 ensures path[..n][j + 1] in ChildrenOf(nodes, path[..n][j].nodeId) {
      assert path[j + 1] in ChildrenOf(nodes, path[j].nodeId);
    }
  }

  lemma {:induction false} TotalsFall(nodes: Nodes, c: nat, path: seq<Node>, j: nat)
    requires FallingTotals(nodes, c) && IsPath(nodes, path) && j < |path|
    ensures Total(path[|path| - 1], c) <= Total(path[j], c)
    decreases |path| - j
  {
    if j < |path| - 1 {
      TotalsFall(nodes, c, path, j + 1);
      PathPrefix(nodes, path, j + 2);
      assert path[..j + 2][j + 1] == path[j + 1] && path[..j + 2][j] == path[j];
    }
  }

  /** Pruning is closed under ancestors: when totals fall from parent to child, the ids drawn are
      the root's and exactly those of the reachable nodes at or above the threshold. */
  lemma {:induction false} DrawsExactlyKept(nodes: Nodes, c: nat, t: int, drawn: seq<Drawn>, id: nat)
    requires Drawing(nodes, c, t, drawn) && ClosedTo(nodes, c, t, drawn, |drawn| + 1) && FallingTotals(nodes, c)
    ensures DrawnId(drawn, |drawn|, id) <==>
            id == 0 || exists path: seq<Node> :: IsPath(nodes, path) && path[|path| - 1].nodeId == id
                                      && (t == 0 || Total(path[|path| - 1], c) >= t)
  {
    if DrawnId(drawn, |drawn|, id) {
      var k :| 0 <= k <= |drawn| && IdAt(drawn, k) == id;
      if k > 0 {
        var path := DrawnHasPath(nodes, c, t, drawn, k - 1);
        assert path[|path| - 1].nodeId == id;
      }
    }
    assert IdAt(drawn, 0) == 0;
    forall path: seq<Node> | IsPath(nodes, path) && path[|path| - 1].nodeId == id && Keep(t, Total(path[|path| - 1], c))
      ensures DrawnId(drawn, |drawn|, id)
    {
      forall j | 0 <= j < |path| ensures Keep(t, Total(path[j], c)) {
        TotalsFall(nodes, c, path, j);
      }
      PathDrawn(nodes, c, t, drawn, path);
    }
  }

  // ----- the size limit

  /** The drawn nodes strictly above t. */
  function DrawnAbove(drawn: seq<Drawn>, c: nat, t: int): seq<Drawn> {
    if drawn == [] then []
    else
      DrawnAbove(drawn[..|drawn| - 1], c, t) +
      if Total(drawn[|drawn| - 1].node, c) > t then [drawn[|drawn| - 1]] else []
  }

  /** The place holds a node whose id was drawn among the first n. */
  ghost predicate UsedBy(nodes: Nodes, drawn: seq<Drawn>, n: nat, q: (nat, nat)) {
    && q.0 in nodes && q.1 < |nodes[q.0]|
    && exists j :: 1 <= j <= n && j <= |drawn| && IdAt(drawn, j) == nodes[q.0][q.1].nodeId
  }

  /** Each node drawn above t takes a place of its own. */
  lemma {:induction false} DrawnPlaces(nodes: Nodes, c: nat, t: int, drawn: seq<Drawn>, keep: int, n: nat)
    returns (used: set<(nat, nat)>)
    requires Drawing(nodes, c, keep, drawn) && n <= |drawn|
    ensures |used| == |DrawnAbove(drawn[..n], c, t)| && used <= Places(nodes, c, Above(t))
    ensures forall q :: q in used ==> UsedBy(nodes, drawn, n, q)
  {
    if n == 0 {
      used := {};
    } else {
      used := DrawnPlaces(nodes, c, t, drawn, keep, n - 1);
      assert drawn[..n][..n - 1] == drawn[..n - 1];
      var d := drawn[n - 1];
      assert EdgeAt(nodes, c, keep, drawn, n - 1);
      forall q | q in used ensures UsedBy(nodes, drawn, n, q) {
        assert UsedBy(nodes, drawn, n - 1, q);
      }
      if Total(d.node, c) > t {
        var p := IdAt(drawn, d.from);
        var i: nat :| i < |ChildrenOf(nodes, p)| && ChildrenOf(nodes, p)[i] == d.node;
        assert forall j :: 1 <= j <= n - 1 ==> IdAt(drawn, j) != IdAt(drawn, n);
        assert !UsedBy(nodes, drawn, n - 1, (p, i));
        assert IdAt(drawn, n) == nodes[p][i].nodeId;
        used := used + {(p, i)};
      }
    }
  }

  /** With a limit in force, fewer than maxNodes drawn nodes lie above the threshold. The limit
      can be exceeded by ties at the threshold and, when it is 0, by everything below it. */
  lemma {:induction false} LimitExceededOnlyByTies(nodes: Nodes, c: nat, t: int, drawn: seq<Drawn>, maxNodes: int)
    requires IsThreshold(nodes, c, maxNodes, t) && Limited(nodes, c, maxNodes) && Drawing(nodes, c, t, drawn)
    ensures |DrawnAbove(drawn, c, t)| < maxNodes
    ensures t != 0 ==> forall k :: 0 <= k < |drawn| ==> Total(drawn[k].node, c) >= t
  {
    forall k | 0 <= k < |drawn| ensures Keep(t, Total(drawn[k].node, c)) {
      assert EdgeAt(nodes, c, t, drawn, k);
    }
    var used := DrawnPlaces(nodes, c, t, drawn, t, |drawn|);
    assert drawn[..|drawn|] == drawn;
    SubsetSize(used, Places(nodes, c, Above(t)));
  }

  /** ToDot's choice and numbering of nodes. */
  method Choose(nodes: Nodes, c: nat, maxNodes: int) returns (drawn: seq<Drawn>, t: int)
    ensures IsThreshold(nodes, c, maxNodes, t)
    ensures Drawing(nodes, c, t, drawn) && ClosedTo(nodes, c, t, drawn, |drawn| + 1)
    ensures Limited(nodes, c, maxNodes) ==> |DrawnAbove(drawn, c, t)| < maxNodes
  {
    t := Threshold(nodes, c, maxNodes);
    drawn := Draw(nodes, c, t);
    if Limited(nodes, c, maxNodes) {
      LimitExceededOnlyByTies(nodes, c, t, drawn, maxNodes);
    }
  }
}
