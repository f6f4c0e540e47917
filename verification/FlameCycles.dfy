/** Cycles: a tree has finitely many levels exactly when no id repeats on a way down from the
    root, and then non-negative selves make a sound picture. */
module FlameCycles {
  import opened Sequences
  import opened FlameBars
  import opened FlameLayout
  import opened FlameTree

  ghost predicate Link(nodes: Nodes, ids: seq<nat>, k: nat)
    requires k < |ids|
  {
    k > 0 ==> Occurs(nodes, ids[k - 1], ids[k])
  }

  /** Ids from the root downwards, each that of a child of the one before. */
  ghost predicate Descent(nodes: Nodes, ids: seq<nat>) {
    ids != [] && ids[0] == 0 && forall k :: 0 <= k < |ids| ==> Link(nodes, ids, k)
  }

  /** No id repeats on a way down from the root. */
  ghost predicate Acyclic(nodes: Nodes) {
    forall ids :: Descent(nodes, ids) ==> Distinct(ids)
  }

  ghost predicate SameKids(nodes: Nodes, kids: nat -> seq<Node>, id: nat) {
    multiset(kids(id)) == multiset(ChildrenOf(nodes, id))
  }

  /** The children of each node, in some order. */
  ghost predicate KidsOf(nodes: Nodes, kids: nat -> seq<Node>) {
    forall id :: SameKids(nodes, kids, id)
  }

  lemma {:induction false} KidsOccur(nodes: Nodes, kids: nat -> seq<Node>, id: nat, n: Node)
    requires KidsOf(nodes, kids)
    ensures n in kids(id) <==> n in ChildrenOf(nodes, id)
  {
    assert SameKids(nodes, kids, id);
    assert n in kids(id) <==> n in multiset(kids(id));
    assert n in ChildrenOf(nodes, id) <==> n in multiset(ChildrenOf(nodes, id));
  }

  lemma {:induction false} IdOccurs(nodes: Nodes, p: nat, n: Node)
    requires n in ChildrenOf(nodes, p)
    ensures Occurs(nodes, p, n.nodeId) && n.nodeId in AllIds(nodes)
  {
    var i :| 0 <= i < |ChildrenOf(nodes, p)| && ChildrenOf(nodes, p)[i] == n;
    assert Ids(ChildrenOf(nodes, p))[i] == n.nodeId;
    assert nodes[p][i] == n;
  }

  lemma {:induction false} DescentMore(nodes: Nodes, ids: seq<nat>, x: nat)
    requires Descent(nodes, ids) && Occurs(nodes, ids[|ids| - 1], x)
    ensures Descent(nodes, ids + [x])
  {
    forall k | 0 <= k < |ids| + 1 ensures Link(nodes, ids + [x], k) {
      if k < |ids| {
        assert Link(nodes, ids, k);
      }
    }
  }

  /** A descent of k steps to x. */
  ghost predicate DescentTo(nodes: Nodes, ids: seq<nat>, k: nat, x: nat) {
    Descent(nodes, ids) && |ids| == k + 1 && ids[k] == x
  }

  lemma {:induction false} RootDescent(nodes: Nodes)
    ensures DescentTo(nodes, [0], 0, 0)
  {
  }

  /** A node of level k ends a descent of k steps. */
  lemma {:induction false} LevelDescent(nodes: Nodes, kids: nat -> seq<Node>, root: Node, k: nat, c: nat, n: Node)
    returns (ids: seq<nat>)
    requires KidsOf(nodes, kids) && root.nodeId == 0 && n in NodesOf(BarsAt(kids, root, k, c))
    ensures DescentTo(nodes, ids, k, n.nodeId)
    decreases k
  {
    if k == 0 {
      RootDescent(nodes);
      assert NodesOf([Bar(0, root)]) == [root];
      ids := [0];
    } else {
      var above := BarsAt(kids, root, k - 1, c);
      assert BarsAt(kids, root, k, c) == Expand(kids, above, c);
      var p := NodeAbove(kids, above, c, n);
      var way := LevelDescent(nodes, kids, root, k - 1, c, p);
      ids := StepDown(nodes, kids, way, k - 1, p, n);
    }
  }

  lemma {:induction false} NodeAbove(kids: nat -> seq<Node>, above: seq<Bar>, c: nat, n: Node) returns (p: Node)
    requires n in NodesOf(Expand(kids, above, c))
    ensures p in NodesOf(above) && n in kids(p.nodeId)
  {
    var below := Expand(kids, above, c);
    var i :| 0 <= i < |below| && NodesOf(below)[i] == n;
    var j := ExpandParent(kids, above, c, i);
    p := above[j].node;
    assert NodesOf(above)[j] == p;
  }

  lemma {:induction false} StepDown(nodes: Nodes, kids: nat -> seq<Node>, way: seq<nat>, k: nat, p: Node, n: Node)
    returns (ids: seq<nat>)
    requires KidsOf(nodes, kids) && DescentTo(nodes, way, k, p.nodeId) && n in kids(p.nodeId)
    ensures DescentTo(nodes, ids, k + 1, n.nodeId)
  {
    KidsOccur(nodes, kids, p.nodeId, n);
    IdOccurs(nodes, p.nodeId, n);
    DescentMore(nodes, way, n.nodeId);
    ids := way + [n.nodeId];
  }

  lemma {:induction false} DescentPrefix(nodes: Nodes, ids: seq<nat>, n: nat)
    requires Descent(nodes, ids) && 0 < n <= |ids|
    ensures Descent(nodes, ids[..n])
  {
    forall k | 0 <= k < n ensures Link(nodes, ids[..n], k) {
      assert Link(nodes, ids, k);
    }
  }

  /** The end of a descent of k steps is on level k. */
  lemma {:induction false} DescentLevel(nodes: Nodes, kids: nat -> seq<Node>, root: Node, c: nat, ids: seq<nat>)
    returns (i: nat)
    requires KidsOf(nodes, kids) && root.nodeId == 0 && Descent(nodes, ids)
    ensures i < |BarsAt(kids, root, |ids| - 1, c)|
    ensures BarsAt(kids, root, |ids| - 1, c)[i].node.nodeId == ids[|ids| - 1]
  {
    var k := |ids| - 1;
    if k == 0 {
      i := 0;
    } else {
      DescentPrefix(nodes, ids, k);
      var j := DescentLevel(nodes, kids, root, c, ids[..k]);
      assert Link(nodes, ids, k);
      var ns := ChildrenOf(nodes, ids[k - 1]);
      var m :| 0 <= m < |ns| && Ids(ns)[m] == ids[k];
      KidsOccur(nodes, kids, ids[k - 1], ns[m]);
      i := ChildInExpand(kids, BarsAt(kids, root, k - 1, c), c, j, ns[m]);
    }
  }

  lemma {:induction false} DistinctSize(ids: seq<nat>)
    requires Distinct(ids)
    ensures |SetOf(ids)| == |ids|
  {
    if ids != [] {
      var n := |ids| - 1;
      DistinctSize(ids[..n]);
      assert SetOf(ids) == SetOf(ids[..n]) + {ids[n]};
      assert ids[n] !in SetOf(ids[..n]);
    }
  }

  lemma {:induction false} DescentInTree(nodes: Nodes, ids: seq<nat>)
    requires Descent(nodes, ids)
    ensures SetOf(ids) <= {0} + AllIds(nodes)
  {
    forall k | 0 <= k < |ids| ensures ids[k] in {0} + AllIds(nodes) {
      assert Link(nodes, ids, k);
      if k > 0 {
        var ns := ChildrenOf(nodes, ids[k - 1]);
        var m :| 0 <= m < |ns| && Ids(ns)[m] == ids[k];
        IdOccurs(nodes, ids[k - 1], ns[m]);
      }
    }
  }

  /** Without cycles the levels end. */
  lemma {:induction false} AcyclicEnds(nodes: Nodes, kids: nat -> seq<Node>, root: Node, c: nat)
    requires KidsOf(nodes, kids) && root.nodeId == 0 && Acyclic(nodes)
    ensures BarsAt(kids, root, |AllIds(nodes)| + 1, c) == []
  {
    var k := |AllIds(nodes)| + 1;
    if BarsAt(kids, root, k, c) != [] {
      var ids := LevelDescent(nodes, kids, root, k, c, NodesOf(BarsAt(kids, root, k, c))[0]);
      DistinctSize(ids);
      DescentInTree(nodes, ids);
      SubsetSize(SetOf(ids), {0} + AllIds(nodes));
    }
  }

  /** A descent that comes back to an id can be as long as one likes. */
  lemma {:induction false} LongDescent(nodes: Nodes, ids: seq<nat>, i: nat, j: nat, n: nat) returns (long: seq<nat>)
    requires Descent(nodes, ids) && i < j < |ids| && ids[i] == ids[j] && n > 0
    ensures Descent(nodes, long) && |long| == n
    decreases n - j
  {
    if n <= j {
      DescentPrefix(nodes, ids, n);
      long := ids[..n];
    } else {
      var round := ids[..j + 1] + ids[i + 1..j + 1];
      forall k | 0 <= k < |round| ensures Link(nodes, round, k) {
        var m := if k <= j then k else k - j + i;
        assert Link(nodes, ids, m);
        assert round[k] == ids[m] && (k > 0 ==> round[k - 1] == ids[m - 1]);
      }
      long := LongDescent(nodes, round, j, j + (j - i), n);
    }
  }

  /** With a cycle no level is empty. */
  lemma {:induction false} CyclicGoesOn(nodes: Nodes, kids: nat -> seq<Node>, root: Node, c: nat, k: nat)
    requires KidsOf(nodes, kids) && root.nodeId == 0 && !Acyclic(nodes)
    ensures BarsAt(kids, root, k, c) != []
  {
    var ids :| Descent(nodes, ids) && !Distinct(ids);
    var i, j :| 0 <= i < j < |ids| && ids[i] == ids[j];
    var long := LongDescent(nodes, ids, i, j, k + 1);
    var m := DescentLevel(nodes, kids, root, c, long);
  }

  /** up gives each id its parent, and the root is nobody's child. */
  ghost predicate OneParent(nodes: Nodes, up: nat -> nat) {
    forall p, x :: Occurs(nodes, p, x) ==> x != 0 && p == up(x)
  }

  lemma {:induction false} OneParentApart(nodes: Nodes, up: nat -> nat, ids: seq<nat>, i: nat, j: nat)
    requires OneParent(nodes, up) && Descent(nodes, ids) && i < j < |ids|
    ensures ids[i] != ids[j]
  {
    assert Link(nodes, ids, j) && Link(nodes, ids, i);
    if i > 0 {
      OneParentApart(nodes, up, ids, i - 1, j - 1);
    }
  }

  /** Path ids rule cycles out. */
  lemma {:induction false} OneParentAcyclic(nodes: Nodes, up: nat -> nat)
    requires OneParent(nodes, up)
    ensures Acyclic(nodes)
  {
    forall ids | Descent(nodes, ids) ensures Distinct(ids) {
      forall i, j | 0 <= i < j < |ids| ensures ids[i] != ids[j] {
        OneParentApart(nodes, up, ids, i, j);
      }
    }
  }

  /** A tree that is its own child: additive, but with a cycle. */
  lemma {:induction false} CycleExample() returns (nodes: Nodes)
    ensures AdditiveTree(nodes, 0) && PositiveSelf(nodes, 0) && !Acyclic(nodes)
  {
    var n := Node(1, 0, [0], [5]);
    nodes := map[0 := [n]];
    assert SumTotals([n], 0) == SumBy(TotalIn(0), [n][..0]) + Total(n, 0) == 5 by {
      assert [n][..0] == [];
    }
    assert Kids(nodes)(0) == [n];
    var ids := [0, 0];
    assert Ids(nodes[0])[0] == 0;
    assert Descent(nodes, ids);
    assert !Distinct(ids) by {
      assert ids[0] == ids[1];
    }
  }

  // ----- sound pictures

  lemma {:induction false} LevelAddsUp(nodes: Nodes, kids: nat -> seq<Node>, root: Node, k: nat, c: nat)
    requires KidsOf(nodes, kids) && AdditiveTree(nodes, c) && PositiveSelf(nodes, c)
    requires AdditiveNode(Kids(nodes), root, c) && Self(root, c) >= 0
    ensures LevelAdds(kids, BarsAt(kids, root, k, c), c)
  {
    var bars := BarsAt(kids, root, k, c);
    forall i | 0 <= i < |bars| ensures AdditiveNode(kids, bars[i].node, c) && Self(bars[i].node, c) >= 0 {
      var n := bars[i].node;
      if k > 0 {
        var above := BarsAt(kids, root, k - 1, c);
        var j := ExpandParent(kids, above, c, i);
        var p := above[j].node.nodeId;
        KidsOccur(nodes, kids, p, n);
        var m :| 0 <= m < |ChildrenOf(nodes, p)| && ChildrenOf(nodes, p)[m] == n;
        assert nodes[p][m] == n;
      }
      assert AdditiveNode(Kids(nodes), n, c);
      assert SameKids(nodes, kids, n.nodeId);
      SumByPermutation(TotalIn(c), kids(n.nodeId), ChildrenOf(nodes, n.nodeId));
      assert Kids(nodes)(n.nodeId) == ChildrenOf(nodes, n.nodeId);
    }
  }

  /** The picture of an additive tree without cycles and with non-negative selves is sound on
      every level. */
  lemma {:induction false} TreeSound(nodes: Nodes, kids: nat -> seq<Node>, root: Node, c: nat)
    requires KidsOf(nodes, kids) && AdditiveTree(nodes, c) && PositiveSelf(nodes, c) && Acyclic(nodes)
    requires root.nodeId == 0 && AdditiveNode(Kids(nodes), root, c) && Self(root, c) >= 0
    ensures SoundPicture(kids, root, c)
  {
    AcyclicEnds(nodes, kids, root, c);
    forall m: nat ensures LevelAdds(kids, BarsAt(kids, root, m, c), c) {
      LevelAddsUp(nodes, kids, root, m, c);
    }
    PictureSound(kids, root, c, |AllIds(nodes)| + 1);
  }

  lemma {:induction false} OwnKids(nodes: Nodes)
    ensures KidsOf(nodes, Kids(nodes))
  {
    forall id ensures SameKids(nodes, Kids(nodes), id) {
      assert Kids(nodes)(id) == ChildrenOf(nodes, id);
    }
  }

  lemma {:induction false} PaintedDistances(cells: seq<Cell>, bars: seq<Bar>, c: nat, names: NamesMap)
    requires Decode(cells) == Paint(bars, c, names) && Ordered(bars, c)
    requires forall i :: 0 <= i < |bars| ==> bars[i].left >= 0
    ensures forall j :: 0 <= j < |cells| ==> cells[j].offset >= 0
  {
    forall j | 0 <= j < |cells| ensures cells[j].total == Total(bars[j].node, c) {
      DecodeKeepsTotals(cells, j);
    }
    OrderedDistances(cells, bars, c);
  }

  /** The cells are the bars: left edge, total, self, and where the name of the function is listed,
      0 for a function without one. */
  ghost predicate CellsAre(cells: seq<Cell>, bars: seq<Bar>, c: nat, names: NamesMap) {
    && |cells| == |bars|
    && forall j :: 0 <= j < |cells| ==>
         && cells[j].offset == bars[j].left && cells[j].total == Total(bars[j].node, c)
         && cells[j].self == Self(bars[j].node, c)
         && cells[j].name == if bars[j].node.fnId in names then names[bars[j].node.fnId] else 0
  }

  /** The picture that BFS stores: on every level the cells decode to bars in order, each inside
      a bar of the level above, and the distances are not negative. */
  lemma {:induction false} BfsPicture(nodes: Nodes, columns: nat, c: nat, names: NamesMap, res: seq<seq<Cell>>, k: nat)
    requires c < columns && Layout(nodes, RootNode(nodes, columns, c), res, c, names) && 1 <= k < |res|
    requires AdditiveTree(nodes, c) && PositiveSelf(nodes, c) && Acyclic(nodes)
    ensures var kids, root := Kids(nodes), RootNode(nodes, columns, c);
            var bars := BarsAt(kids, root, k, c);
            && CellsAre(Decode(res[k]), bars, c, names) && LevelOk(kids, root, k, c)
            && forall j :: 0 <= j < |res[k]| ==> res[k][j].offset >= 0
  {
    var root := RootNode(nodes, columns, c);
    var bars := BarsAt(Kids(nodes), root, k, c);
    OwnKids(nodes);
    RootAdditive(nodes, columns, c);
    TreeSound(nodes, Kids(nodes), root, c);
    PictureLevel(Kids(nodes), root, k, c);
    assert Decode(res[k]) == Paint(bars, c, names);
    PaintedDistances(res[k], bars, c, names);
  }
}
