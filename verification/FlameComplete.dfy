/** On trees of path ids, such as MergeTrie builds, BFS draws every node exactly once, and two of
    them are ready to be compared. */
module FlameComplete {
  import opened Sequences
  import opened FlameBars
  import opened FlameLayout
  import opened FlameTree
  import opened FlameMerge
  import opened FlameCycles
  import opened DotPruning
  import FlameDiff

  function LevelIds(nodes: Nodes, root: Node, k: nat, c: nat): seq<nat> {
    Ids(NodesOf(BarsAt(Kids(nodes), root, k, c)))
  }

  /** The ids below the first j bars are distinct and have their parents among these bars. */
  ghost predicate BelowOk(nodes: Nodes, bars: seq<Bar>, j: nat, c: nat, up: nat -> nat)
    requires j <= |bars|
  {
    var below := Ids(NodesOf(Expand(Kids(nodes), bars[..j], c)));
    Distinct(below) && forall x :: x in below ==> x != 0 && up(x) in Ids(NodesOf(bars[..j]))
  }

  lemma {:induction false} ConcatDistinct(a: seq<nat>, b: seq<nat>)
    requires Distinct(a) && Distinct(b) && forall x :: x in a ==> x !in b
    ensures Distinct(a + b)
  {
    var all := a + b;
    forall i, j | 0 <= i < j < |all| ensures all[i] != all[j] {
      if i < |a| <= j {
        assert all[i] in a && all[j] in b;
      }
    }
  }

  lemma {:induction false} IdsConcat(a: seq<Node>, b: seq<Node>)
    ensures Ids(a + b) == Ids(a) + Ids(b)
  {
  }

  lemma {:induction false} BelowNext(nodes: Nodes, bars: seq<Bar>, j: nat, c: nat, up: nat -> nat)
    requires DistinctChildren(nodes) && Shaped(nodes, up) && j < |bars| && Distinct(Ids(NodesOf(bars)))
    requires BelowOk(nodes, bars, j, c, up)
    ensures BelowOk(nodes, bars, j + 1, c, up)
  {
    var p := bars[j].node.nodeId;
    var kids := ChildrenOf(nodes, p);
    ExpandOne(Kids(nodes), bars, j, c);
    assert Kids(nodes)(p) == kids;
    var below := Ids(NodesOf(Expand(Kids(nodes), bars[..j], c)));
    IdsConcat(NodesOf(Expand(Kids(nodes), bars[..j], c)), kids);
    forall x | x in Ids(kids) ensures x != 0 && up(x) == p {
      assert Occurs(nodes, p, x);
    }
    assert Ids(NodesOf(bars[..j + 1]))[j] == p;
    forall x | x in Ids(NodesOf(bars[..j])) ensures x in Ids(NodesOf(bars[..j + 1])) && x != p {
      var m :| 0 <= m < j && Ids(NodesOf(bars[..j]))[m] == x;
      assert Ids(NodesOf(bars[..j + 1]))[m] == x;
      assert Ids(NodesOf(bars))[m] != Ids(NodesOf(bars))[j];
    }
    ConcatDistinct(below, Ids(kids));
  }

  lemma {:induction false} BelowAll(nodes: Nodes, bars: seq<Bar>, j: nat, c: nat, up: nat -> nat)
    requires DistinctChildren(nodes) && Shaped(nodes, up) && j <= |bars| && Distinct(Ids(NodesOf(bars)))
    ensures BelowOk(nodes, bars, j, c, up)
  {
    if j > 0 {
      BelowAll(nodes, bars, j - 1, c, up);
      BelowNext(nodes, bars, j - 1, c, up);
    }
  }

  /** No id repeats on a level, and from level 1 on each has its parent on the level above. */
  lemma {:induction false} LevelDistinct(nodes: Nodes, root: Node, k: nat, c: nat, up: nat -> nat)
    requires DistinctChildren(nodes) && Shaped(nodes, up) && root.nodeId == 0
    ensures Distinct(LevelIds(nodes, root, k, c))
    ensures k > 0 ==> forall x :: x in LevelIds(nodes, root, k, c) ==> x != 0 && up(x) in LevelIds(nodes, root, k - 1, c)
  {
    if k > 0 {
      LevelDistinct(nodes, root, k - 1, c, up);
      var bars := BarsAt(Kids(nodes), root, k - 1, c);
      BelowAll(nodes, bars, |bars|, c, up);
      assert bars[..|bars|] == bars;
    }
  }

  /** No id is on two levels. */
  lemma {:induction false} LevelsDisjoint(nodes: Nodes, root: Node, j: nat, k: nat, c: nat, up: nat -> nat, x: nat)
    requires DistinctChildren(nodes) && Shaped(nodes, up) && root.nodeId == 0 && j < k
    requires x in LevelIds(nodes, root, j, c)
    ensures x !in LevelIds(nodes, root, k, c)
  {
    LevelDistinct(nodes, root, k, c, up);
    if j == 0 {
      assert LevelIds(nodes, root, 0, c) == [0];
    } else {
      LevelDistinct(nodes, root, j, c, up);
      LevelsDisjoint(nodes, root, j - 1, k - 1, c, up, up(x));
    }
  }

  lemma {:induction false} FromLevel(nodes: Nodes, root: Node, k: nat, c: nat, x: nat) returns (j: nat)
    requires x in IdsUpTo(nodes, root, k, c)
    ensures 1 <= j <= k && x in LevelIds(nodes, root, j, c)
  {
    if x in LevelIds(nodes, root, k, c) {
      j := k;
    } else {
      j := FromLevel(nodes, root, k - 1, c, x);
    }
  }

  /** No id ever repeats. */
  lemma {:induction false} NeverRepeats(nodes: Nodes, root: Node, k: nat, c: nat, up: nat -> nat)
    requires DistinctChildren(nodes) && Shaped(nodes, up) && root.nodeId == 0
    ensures Distinct(IdsUpTo(nodes, root, k, c))
  {
    if k > 0 {
      NeverRepeats(nodes, root, k - 1, c, up);
      LevelDistinct(nodes, root, k, c, up);
      forall x | x in IdsUpTo(nodes, root, k - 1, c) ensures x !in LevelIds(nodes, root, k, c) {
        var j := FromLevel(nodes, root, k - 1, c, x);
        LevelsDisjoint(nodes, root, j, k, c, up, x);
      }
      ConcatDistinct(IdsUpTo(nodes, root, k - 1, c), LevelIds(nodes, root, k, c));
    }
  }

  /** A node at the end of a path of length k is on level k. */
  lemma {:induction false} PathOnLevel(nodes: Nodes, root: Node, c: nat, path: seq<Node>) returns (i: nat)
    requires IsPath(nodes, path) && root.nodeId == 0
    ensures i < |BarsAt(Kids(nodes), root, |path|, c)|
    ensures BarsAt(Kids(nodes), root, |path|, c)[i].node == path[|path| - 1]
  {
    var k := |path|;
    var above := BarsAt(Kids(nodes), root, k - 1, c);
    var j: nat := 0;
    if k > 1 {
      PathPrefix(nodes, path, k - 1);
      j := PathOnLevel(nodes, root, c, path[..k - 1]);
      assert path[k - 2 + 1] in ChildrenOf(nodes, path[k - 2].nodeId);
    }
    i := ChildInExpand(Kids(nodes), above, c, j, path[k - 1]);
  }

  /** Level k of a result shows the node n. */
  ghost predicate ShownOn(nodes: Nodes, root: Node, res: seq<seq<Cell>>, c: nat, names: NamesMap, k: nat, n: Node)
    requires k < |res|
  {
    var bars := BarsAt(Kids(nodes), root, k, c);
    exists i :: 0 <= i < |bars| && bars[i].node == n && i < |res[k]| &&
      Decode(res[k])[i] == Cell(bars[i].left, Total(n, c), Self(n, c), NameIndex(names, n.fnId))
  }

  /** BFS goes down to every node that hangs from the root, and draws no node twice; on an
      additive tree each of these nodes has its cell on its own level. */
  lemma {:induction false} EveryNodeDrawn(nodes: Nodes, root: Node, res: seq<seq<Cell>>, c: nat, names: NamesMap,
                                          up: nat -> nat, path: seq<Node>)
    requires DistinctChildren(nodes) && Shaped(nodes, up) && root.nodeId == 0
    requires Layout(nodes, root, res, c, names) && IsPath(nodes, path)
    ensures |path| < |res| && path[|path| - 1] in NodesOf(BarsAt(Kids(nodes), root, |path|, c))
    ensures Distinct(IdsUpTo(nodes, root, |res| - 1, c))
    ensures AdditiveTree(nodes, c) ==> ShownOn(nodes, root, res, c, names, |path|, path[|path| - 1])
  {
    var i := PathOnLevel(nodes, root, c, path);
    NeverRepeats(nodes, root, |res|, c, up);
    if |res| <= |path| {
      EmptyStaysEmpty(Kids(nodes), root, |res| - 1, |path|, c);
    }
    var bars := BarsAt(Kids(nodes), root, |path|, c);
    assert NodesOf(bars)[i] == path[|path| - 1];
    if AdditiveTree(nodes, c) {
      assert Decode(res[|path|]) == Paint(bars, c, names);
      assert |Decode(res[|path|])| == |res[|path|]|;
    }
  }

  /** What the pruning needs: in an additive tree without cycles and with non-negative selves,
      totals fall on the way down. */
  lemma {:induction false} AdditiveTotalsFall(nodes: Nodes, c: nat)
    requires AdditiveTree(nodes, c) && PositiveSelf(nodes, c) && Acyclic(nodes)
    ensures FallingTotals(nodes, c)
  {
    forall path | IsPath(nodes, path) && |path| >= 2
      ensures Total(path[|path| - 1], c) <= Total(path[|path| - 2], c)
    {
      ChildFalls(nodes, c, path);
    }
  }

  lemma {:induction false} ChildFalls(nodes: Nodes, c: nat, path: seq<Node>)
    requires AdditiveTree(nodes, c) && PositiveSelf(nodes, c) && Acyclic(nodes)
    requires IsPath(nodes, path) && |path| >= 2
    ensures Total(path[|path| - 1], c) <= Total(path[|path| - 2], c)
  {
    var k := |path| - 1;
    var root := RootNode(nodes, c + 1, c);
    OwnKids(nodes);
    RootAdditive(nodes, c + 1, c);
    TreeSound(nodes, Kids(nodes), root, c);
    PathPrefix(nodes, path, k);
    var i := PathOnLevel(nodes, root, c, path[..k]);
    var bars := BarsAt(Kids(nodes), root, k, c);
    assert Sound(Kids(nodes), bars, c) && bars[i].node == path[k - 1];
    assert path[k - 1 + 1] in ChildrenOf(nodes, path[k - 1].nodeId);
    var ns := Kids(nodes)(path[k - 1].nodeId);
    SumNonNegative(ns, c);
  }

  /** Two tries in which ids have the same parents give trees that mergeNodes may align. */
  lemma {:induction false} TriesAlign(rows1: seq<Row>, rows2: seq<Row>, columns: nat, c: nat, up: nat -> nat)
    requires c < columns && StoredTrie(rows1, up) && StoredTrie(rows2, up)
    ensures var n1, n2 := AddRows(map[], columns, c, rows1), AddRows(map[], columns, c, rows2);
            && DistinctChildren(n1) && DistinctChildren(n2) && AdditiveTree(n1, c) && AdditiveTree(n2, c)
            && NoOrphans(n1, n2, c) && NoOrphans(n2, n1, c)
  {
    var n1, n2 := AddRows(map[], columns, c, rows1), AddRows(map[], columns, c, rows2);
    TrieTree(rows1, columns, c, up);
    TrieTree(rows2, columns, c, up);
    SameShapePathIds(n1, n2, up);
    SameShapePathIds(n2, n1, up);
    PathIdsNoOrphans(n1, n2, c);
    PathIdsNoOrphans(n2, n1, c);
  }

  lemma {:induction false} TrieTree(rows: seq<Row>, columns: nat, c: nat, up: nat -> nat)
    requires c < columns && StoredTrie(rows, up)
    ensures var n := AddRows(map[], columns, c, rows);
            DistinctChildren(n) && AdditiveTree(n, c) && Shaped(n, up)
  {
    assert Shaped(map[], up);
    RowsKeepDistinct(map[], columns, c, rows);
    RowsKeepAdditive(map[], columns, c, rows, up);
    RowsKeepShape(map[], columns, c, rows, up);
  }

  lemma {:induction false} MergedOneParent(n1: Nodes, n2: Nodes, m1: Nodes, m2: Nodes, up: nat -> nat)
    requires MergedTrees(n1, n2, m1, m2) && OneParent(n1, up) && OneParent(n2, up)
    ensures OneParent(m1, up)
  {
    forall p, x | Occurs(m1, p, x) ensures x != 0 && p == up(x) {
      var k :| 0 <= k < |ChildrenOf(m1, p)| && Ids(ChildrenOf(m1, p))[k] == x;
      OnlyFromBoth(n1, n2, m1, m2, p, k);
      assert Occurs(n1, p, x) || Occurs(n2, p, x);
    }
  }

  /** From rows to picture: two stored tries with the same paths, merged into trees and aligned,
      can be compared, because the walk ends; and whatever levels it writes show on both sides a
      correct picture of the same nodes. */
  lemma {:induction false} TriesDiff(rows1: seq<Row>, rows2: seq<Row>, columns: nat, up: nat -> nat,
                                     n1: Nodes, n2: Nodes, m1: Nodes, m2: Nodes)
    requires 0 < columns && StoredTrie(rows1, up) && StoredTrie(rows2, up)
    requires n1 == AddRows(map[], columns, 0, rows1) && n2 == AddRows(map[], columns, 0, rows2)
    requires PositiveSelf(n1, 0) && PositiveSelf(n2, 0) && MergedTrees(n1, n2, m1, m2)
    ensures FlameDiff.WalkEnds(m1, m2)
    ensures forall levels, out, names, namesMap, k: nat ::
      FlameDiff.NamesOk(names, namesMap) && FlameDiff.DiffShows(m1, m2, levels, out, names, namesMap) && k < |levels| ==>
        FlameDiff.DiffLevelOk(m1, m2, levels[k], k)
  {
    TrieTree(rows1, columns, 0, up);
    TrieTree(rows2, columns, 0, up);
    TriesAlign(rows1, rows2, columns, 0, up);
    MergedOneParent(n1, n2, m1, m2, up);
    OneParentAcyclic(m1, up);
    FlameDiff.WalkEndsIff(m1, m2);
    forall levels, out, names, namesMap, k: nat |
      FlameDiff.NamesOk(names, namesMap) && FlameDiff.DiffShows(m1, m2, levels, out, names, namesMap) && k < |levels|
      ensures FlameDiff.DiffLevelOk(m1, m2, levels[k], k)
    {
      FlameDiff.DiffPipeline(n1, n2, m1, m2, levels, out, names, namesMap, k);
    }
  }
}
