/** Flame graph nodes and the picture they should draw: on every level one bar per node, the
    children of a node side by side from its left edge. */
module FlameBars {
  import opened Sequences

  /** One value per sample type in self and total. */
  datatype Node = Node(fnId: nat, nodeId: nat, self: seq<int>, total: seq<int>)

  /** Tree.Nodes: the children of each node id; the root has id 0. */
  type Nodes = map<nat, seq<Node>>

  function Total(n: Node, c: nat): int {
    if c < |n.total| then n.total[c] else 0
  }

  function Self(n: Node, c: nat): int {
    if c < |n.self| then n.self[c] else 0
  }

  function TotalIn(c: nat): Node -> int {
    (n: Node) => Total(n, c)
  }

  function SumTotals(ns: seq<Node>, c: nat): int {
    SumBy(TotalIn(c), ns)
  }

  function ChildrenOf(nodes: Nodes, id: nat): seq<Node> {
    if id in nodes then nodes[id] else []
  }

  /** Total = Self + the totals of the children. */
  ghost predicate AdditiveNode(kids: nat -> seq<Node>, n: Node, c: nat) {
    Total(n, c) == Self(n, c) + SumTotals(kids(n.nodeId), c)
  }

  // ----- the picture

  datatype Bar = Bar(left: int, node: Node)

  function Right(b: Bar, c: nat): int {
    b.left + Total(b.node, c)
  }

  /** Bars side by side from `left`. */
  function Tile(left: int, ns: seq<Node>, c: nat): (r: seq<Bar>)
    ensures |r| == |ns|
    ensures forall i {:trigger r[i]} :: 0 <= i < |ns| ==> r[i] == Bar(left + SumTotals(ns[..i], c), ns[i])
  {
    seq(|ns|, i requires 0 <= i < |ns| => Bar(left + SumTotals(ns[..i], c), ns[i]))
  }

  /** The level below a level of bars. */
  function Expand(kids: nat -> seq<Node>, bars: seq<Bar>, c: nat): seq<Bar> {
    if bars == [] then []
    else
      var b := bars[|bars| - 1];
      Expand(kids, bars[..|bars| - 1], c) + Tile(b.left, kids(b.node.nodeId), c)
  }

  function BarsAt(kids: nat -> seq<Node>, root: Node, k: nat, c: nat): seq<Bar> {
    if k == 0 then [Bar(0, root)] else Expand(kids, BarsAt(kids, root, k - 1, c), c)
  }

  /** No bar starts before the bars to its left have ended. */
  ghost predicate Ordered(bars: seq<Bar>, c: nat) {
    forall i, j :: 0 <= i < j < |bars| ==> Right(bars[i], c) <= bars[j].left
  }

  ghost predicate NonNegative(ns: seq<Node>, c: nat) {
    forall i :: 0 <= i < |ns| ==> Self(ns[i], c) >= 0 && Total(ns[i], c) >= 0
  }

  /** Every node the picture can reach from `bars` adds up and is non-negative. */
  ghost predicate Sound(kids: nat -> seq<Node>, bars: seq<Bar>, c: nat) {
    forall i :: 0 <= i < |bars| ==>
      && AdditiveNode(kids, bars[i].node, c) && Self(bars[i].node, c) >= 0 && Total(bars[i].node, c) >= 0
      && NonNegative(kids(bars[i].node.nodeId), c)
  }

  lemma {:induction false} SumTotalsGrows(ns: seq<Node>, i: nat, j: nat, c: nat)
    requires NonNegative(ns, c) && i <= j <= |ns|
    ensures SumTotals(ns[..i], c) <= SumTotals(ns[..j], c)
    decreases j
  {
    if i < j {
      assert ns[..j][..j - 1] == ns[..j - 1];
      SumTotalsGrows(ns, i, j - 1, c);
    }
  }

  lemma {:induction false} TileOrdered(left: int, ns: seq<Node>, c: nat)
    requires NonNegative(ns, c)
    ensures Ordered(Tile(left, ns, c), c)
    ensures forall i :: 0 <= i < |ns| ==>
      left <= Tile(left, ns, c)[i].left && Right(Tile(left, ns, c)[i], c) <= left + SumTotals(ns, c)
  {
    var r := Tile(left, ns, c);
    forall i, j | 0 <= i < j <= |ns|
      ensures left <= r[i].left && Right(r[i], c) <= left + SumTotals(ns[..j], c)
    {
      assert ns[..i + 1][..i] == ns[..i];
      assert SumTotals(ns[..i + 1], c) == SumTotals(ns[..i], c) + Total(ns[i], c);
      SumTotalsGrows(ns, 0, i, c);
      SumTotalsGrows(ns, i + 1, j, c);
    }
    assert ns[..|ns|] == ns;
  }

  /** The children of a sound bar start at its left edge, touch each other, and leave exactly
      Self free at its right edge. */
  lemma {:induction false} ChildrenTileParent(kids: nat -> seq<Node>, b: Bar, c: nat)
    requires AdditiveNode(kids, b.node, c)
    ensures var r := Tile(b.left, kids(b.node.nodeId), c);
            && (r != [] ==> r[0].left == b.left && Right(r[|r| - 1], c) == Right(b, c) - Self(b.node, c))
            && (r == [] ==> Total(b.node, c) == Self(b.node, c))
            && forall i :: 0 <= i < |r| - 1 ==> Right(r[i], c) == r[i + 1].left
  {
    var ns := kids(b.node.nodeId);
    forall i | 0 <= i < |ns| ensures SumTotals(ns[..i + 1], c) == SumTotals(ns[..i], c) + Total(ns[i], c) {
      assert ns[..i + 1][..i] == ns[..i];
    }
    assert ns[..|ns|] == ns;
  }

  /** A bar of the next level lies inside the bar of its parent, clear of the parent's Self. */
  ghost predicate Inside(kids: nat -> seq<Node>, b: Bar, parent: Bar, c: nat) {
    && b.node in kids(parent.node.nodeId)
    && parent.left <= b.left && Right(b, c) <= Right(parent, c) - Self(parent.node, c)
  }

  lemma {:induction false} ExpandNested(kids: nat -> seq<Node>, bars: seq<Bar>, c: nat, i: nat)
    requires Sound(kids, bars, c) && i < |Expand(kids, bars, c)|
    ensures exists j :: 0 <= j < |bars| && Inside(kids, Expand(kids, bars, c)[i], bars[j], c)
  {
    var n := |bars| - 1;
    var b := bars[n];
    var below := Expand(kids, bars[..n], c);
    if i < |below| {
      ExpandNested(kids, bars[..n], c, i);
      var j :| 0 <= j < n && Inside(kids, below[i], bars[..n][j], c);
      assert Inside(kids, Expand(kids, bars, c)[i], bars[j], c);
    } else {
      var ns := kids(b.node.nodeId);
      TileOrdered(b.left, ns, c);
      assert Tile(b.left, ns, c)[i - |below|] == Expand(kids, bars, c)[i];
      assert Inside(kids, Expand(kids, bars, c)[i], bars[n], c);
    }
  }

  /** Bars of one level never overlap, level after level. */
  lemma {:induction false} ExpandOrdered(kids: nat -> seq<Node>, bars: seq<Bar>, c: nat)
    requires Sound(kids, bars, c) && Ordered(bars, c)
    ensures Ordered(Expand(kids, bars, c), c)
  {
    if bars != [] {
      var n := |bars| - 1;
      var b := bars[n];
      var below, tile := Expand(kids, bars[..n], c), Tile(b.left, kids(b.node.nodeId), c);
      ExpandOrdered(kids, bars[..n], c);
      TileOrdered(b.left, kids(b.node.nodeId), c);
      forall i | 0 <= i < |below| ensures Right(below[i], c) <= b.left {
        ExpandNested(kids, bars[..n], c, i);
        var j :| 0 <= j < n && Inside(kids, below[i], bars[..n][j], c);
        assert Right(bars[j], c) <= b.left;
      }
    }
  }

  ghost predicate SoundPicture(kids: nat -> seq<Node>, root: Node, c: nat) {
    forall k: nat :: Sound(kids, BarsAt(kids, root, k, c), c)
  }

  lemma {:induction false} LevelsOrdered(kids: nat -> seq<Node>, root: Node, k: nat, c: nat)
    requires SoundPicture(kids, root, c)
    ensures Ordered(BarsAt(kids, root, k, c), c)
  {
    if k > 0 {
      LevelsOrdered(kids, root, k - 1, c);
      assert Sound(kids, BarsAt(kids, root, k - 1, c), c);
      ExpandOrdered(kids, BarsAt(kids, root, k - 1, c), c);
    }
  }

  // ----- which pictures are sound

  /** Every bar lies inside a bar of the level above. */
  ghost predicate Nested(kids: nat -> seq<Node>, bars: seq<Bar>, above: seq<Bar>, c: nat) {
    forall i :: 0 <= i < |bars| ==> exists j :: 0 <= j < |above| && Inside(kids, bars[i], above[j], c)
  }

  lemma {:induction false} LevelsNested(kids: nat -> seq<Node>, root: Node, k: nat, c: nat)
    requires SoundPicture(kids, root, c)
    ensures Nested(kids, BarsAt(kids, root, k + 1, c), BarsAt(kids, root, k, c), c)
  {
    var above := BarsAt(kids, root, k, c);
    assert Sound(kids, above, c);
    forall i | 0 <= i < |Expand(kids, above, c)|
      ensures exists j :: 0 <= j < |above| && Inside(kids, Expand(kids, above, c)[i], above[j], c)
    {
      ExpandNested(kids, above, c, i);
    }
  }

  /** No bar starts left of the root. */
  lemma {:induction false} LevelStartsRight(kids: nat -> seq<Node>, root: Node, k: nat, c: nat)
    requires SoundPicture(kids, root, c)
    ensures forall i :: 0 <= i < |BarsAt(kids, root, k, c)| ==> BarsAt(kids, root, k, c)[i].left >= 0
  {
    if k > 0 {
      var above := BarsAt(kids, root, k - 1, c);
      LevelStartsRight(kids, root, k - 1, c);
      forall i | 0 <= i < |BarsAt(kids, root, k, c)| ensures BarsAt(kids, root, k, c)[i].left >= 0 {
        assert Sound(kids, above, c);
        ExpandNested(kids, above, c, i);
      }
    }
  }

  /** A level as it should be: bars in order, none left of the root, each inside one above. */
  ghost predicate LevelOk(kids: nat -> seq<Node>, root: Node, k: nat, c: nat) {
    var bars := BarsAt(kids, root, k, c);
    && Ordered(bars, c) && (forall i :: 0 <= i < |bars| ==> bars[i].left >= 0)
    && (k > 0 ==> Nested(kids, bars, BarsAt(kids, root, k - 1, c), c))
  }

  lemma {:induction false} PictureLevel(kids: nat -> seq<Node>, root: Node, k: nat, c: nat)
    requires SoundPicture(kids, root, c)
    ensures LevelOk(kids, root, k, c)
  {
    LevelsOrdered(kids, root, k, c);
    LevelStartsRight(kids, root, k, c);
    if k > 0 {
      LevelsNested(kids, root, k - 1, c);
    }
  }

  lemma {:induction false} ExpandParent(kids: nat -> seq<Node>, bars: seq<Bar>, c: nat, i: nat) returns (j: nat)
    requires i < |Expand(kids, bars, c)|
    ensures j < |bars| && Expand(kids, bars, c)[i].node in kids(bars[j].node.nodeId)
  {
    var n := |bars| - 1;
    var below := Expand(kids, bars[..n], c);
    if i < |below| {
      j := ExpandParent(kids, bars[..n], c, i);
    } else {
      j := n;
      assert Tile(bars[n].left, kids(bars[n].node.nodeId), c)[i - |below|] == Expand(kids, bars, c)[i];
    }
  }

  lemma {:induction false} ChildInExpand(kids: nat -> seq<Node>, bars: seq<Bar>, c: nat, j: nat, n: Node) returns (i: nat)
    requires j < |bars| && n in kids(bars[j].node.nodeId)
    ensures i < |Expand(kids, bars, c)| && Expand(kids, bars, c)[i].node == n
  {
    var last := |bars| - 1;
    var below := Expand(kids, bars[..last], c);
    if j < last {
      i := ChildInExpand(kids, bars[..last], c, j, n);
    } else {
      var ns := kids(bars[last].node.nodeId);
      var m :| 0 <= m < |ns| && ns[m] == n;
      i := |below| + m;
      assert Tile(bars[last].left, ns, c)[m].node == n;
    }
  }

  lemma {:induction false} SumNonNegative(ns: seq<Node>, c: nat)
    requires forall i :: 0 <= i < |ns| ==> Total(ns[i], c) >= 0
    ensures SumTotals(ns, c) >= 0
    ensures forall i :: 0 <= i < |ns| ==> Total(ns[i], c) <= SumTotals(ns, c)
  {
    if ns != [] {
      SumNonNegative(ns[..|ns| - 1], c);
      forall i | 0 <= i < |ns| ensures Total(ns[i], c) <= SumTotals(ns, c) {
        if i < |ns| - 1 {
          assert ns[..|ns| - 1][i] == ns[i];
        }
      }
    }
  }

  /** The nodes of a level add up and have non-negative selves. */
  ghost predicate LevelAdds(kids: nat -> seq<Node>, bars: seq<Bar>, c: nat) {
    forall i :: 0 <= i < |bars| ==> AdditiveNode(kids, bars[i].node, c) && Self(bars[i].node, c) >= 0
  }

  ghost predicate TotalsPositive(bars: seq<Bar>, c: nat) {
    forall i :: 0 <= i < |bars| ==> Total(bars[i].node, c) >= 0
  }

  /** Where the levels end, non-negative selves make non-negative totals on all of them. */
  lemma {:induction false} LevelsPositive(kids: nat -> seq<Node>, root: Node, c: nat, k: nat, end: nat)
    requires k <= end && BarsAt(kids, root, end, c) == []
    requires forall m: nat :: LevelAdds(kids, BarsAt(kids, root, m, c), c)
    ensures TotalsPositive(BarsAt(kids, root, k, c), c)
    decreases end - k
  {
    if k < end {
      var bars := BarsAt(kids, root, k, c);
      LevelsPositive(kids, root, c, k + 1, end);
      assert BarsAt(kids, root, k + 1, c) == Expand(kids, bars, c);
      assert LevelAdds(kids, bars, c);
      forall i | 0 <= i < |bars| ensures Total(bars[i].node, c) >= 0 {
        ChildrenPositive(kids, bars, c, i);
      }
    }
  }

  lemma {:induction false} ChildrenPositive(kids: nat -> seq<Node>, bars: seq<Bar>, c: nat, i: nat)
    requires i < |bars| && TotalsPositive(Expand(kids, bars, c), c)
    ensures var ns := kids(bars[i].node.nodeId);
            SumTotals(ns, c) >= 0 && forall m :: 0 <= m < |ns| ==> 0 <= Total(ns[m], c) <= SumTotals(ns, c)
  {
    var ns := kids(bars[i].node.nodeId);
    forall m | 0 <= m < |ns| ensures Total(ns[m], c) >= 0 {
      var j := ChildInExpand(kids, bars, c, i, ns[m]);
    }
    SumNonNegative(ns, c);
  }

  /** A picture whose levels end is sound if its nodes add up with non-negative selves. */
  lemma {:induction false} PictureSound(kids: nat -> seq<Node>, root: Node, c: nat, end: nat)
    requires BarsAt(kids, root, end, c) == []
    requires forall m: nat :: LevelAdds(kids, BarsAt(kids, root, m, c), c)
    ensures SoundPicture(kids, root, c)
  {
    forall k: nat ensures Sound(kids, BarsAt(kids, root, k, c), c) {
      if k < end {
        LevelSound(kids, root, c, k, end);
      } else {
        EmptyStaysEmpty(kids, root, end, k, c);
      }
    }
  }

  lemma {:induction false} LevelSound(kids: nat -> seq<Node>, root: Node, c: nat, k: nat, end: nat)
    requires k < end && BarsAt(kids, root, end, c) == []
    requires forall m: nat :: LevelAdds(kids, BarsAt(kids, root, m, c), c)
    ensures Sound(kids, BarsAt(kids, root, k, c), c)
  {
    var bars := BarsAt(kids, root, k, c);
    LevelsPositive(kids, root, c, k, end);
    LevelsPositive(kids, root, c, k + 1, end);
    assert BarsAt(kids, root, k + 1, c) == Expand(kids, bars, c);
    assert LevelAdds(kids, bars, c) && LevelAdds(kids, BarsAt(kids, root, k + 1, c), c);
    forall i | 0 <= i < |bars| ensures NonNegative(kids(bars[i].node.nodeId), c) {
      ChildrenSound(kids, bars, c, i);
    }
  }

  lemma {:induction false} ChildrenSound(kids: nat -> seq<Node>, bars: seq<Bar>, c: nat, i: nat)
    requires i < |bars| && TotalsPositive(Expand(kids, bars, c), c) && LevelAdds(kids, Expand(kids, bars, c), c)
    ensures NonNegative(kids(bars[i].node.nodeId), c)
  {
    ChildrenPositive(kids, bars, c, i);
    var ns := kids(bars[i].node.nodeId);
    forall m | 0 <= m < |ns| ensures Self(ns[m], c) >= 0 {
      var j := ChildInExpand(kids, bars, c, i, ns[m]);
    }
  }

  lemma {:induction false} EmptyStaysEmpty(kids: nat -> seq<Node>, root: Node, j: nat, k: nat, c: nat)
    requires j <= k && BarsAt(kids, root, j, c) == []
    ensures BarsAt(kids, root, k, c) == []
  {
    if j < k {
      EmptyStaysEmpty(kids, root, j, k - 1, c);
    }
  }

  /** The bars below the root start at 0 and end at the sum of its children's totals, which is the
      width of the top bar. */
  lemma {:induction false} TopSpans(kids: nat -> seq<Node>, root: Node, c: nat)
    ensures var bars := BarsAt(kids, root, 1, c);
            && NodesIn(bars) == kids(root.nodeId)
            && (bars != [] ==> bars[0].left == 0 && Right(bars[|bars| - 1], c) == SumTotals(kids(root.nodeId), c))
  {
    var ns := kids(root.nodeId);
    var bars := BarsAt(kids, root, 1, c);
    assert bars == Tile(0, ns, c) by {
      var top := BarsAt(kids, root, 0, c);
      assert top == [Bar(0, root)] && Expand(kids, top[..0], c) == [];
      assert bars == Expand(kids, top, c);
      assert [] + Tile(0, ns, c) == Tile(0, ns, c);
    }
    var n := |ns| - 1;
    if n >= 0 {
      assert ns[..0] == [] && SumTotals([], c) == 0;
      assert SumTotals(ns, c) == SumTotals(ns[..n], c) + Total(ns[n], c);
    }
  }

  function NodesIn(bars: seq<Bar>): (r: seq<Node>)
    ensures |r| == |bars| && forall i :: 0 <= i < |bars| ==> r[i] == bars[i].node
  {
    seq(|bars|, i requires 0 <= i < |bars| => bars[i].node)
  }
}
