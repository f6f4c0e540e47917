/** Tree.BFS: the flame graph level by level, each bar stored as its distance from the end of
    the bar before it. A level's flat value list is a list of cells of four values. */
module FlameLayout {
  import opened Sequences
  import opened FlameBars

  datatype Cell = Cell(offset: int, total: int, self: int, name: int)

  /** Where the cells of a level end when drawn one after the other. */
  function End(cells: seq<Cell>): int {
    if cells == [] then 0
    else End(cells[..|cells| - 1]) + cells[|cells| - 1].offset + cells[|cells| - 1].total
  }

  /** The reader of the format: offsets made absolute. */
  function Decode(cells: seq<Cell>): (r: seq<Cell>)
    ensures |r| == |cells|
  {
    if cells == [] then []
    else
      var init, last := cells[..|cells| - 1], cells[|cells| - 1];
      Decode(init) + [last.(offset := End(init) + last.offset)]
  }

  type NamesMap = map<nat, nat>

  function NameIndex(names: NamesMap, fnId: nat): nat {
    if fnId in names then names[fnId] else 0
  }

  function Paint(bars: seq<Bar>, c: nat, names: NamesMap): (r: seq<Cell>)
    ensures |r| == |bars|
    ensures forall i :: 0 <= i < |bars| ==>
      r[i] == Cell(bars[i].left, Total(bars[i].node, c), Self(bars[i].node, c), NameIndex(names, bars[i].node.fnId))
  {
    seq(|bars|, i requires 0 <= i < |bars| =>
      Cell(bars[i].left, Total(bars[i].node, c), Self(bars[i].node, c), NameIndex(names, bars[i].node.fnId)))
  }

  function Kids(nodes: Nodes): nat -> seq<Node> {
    (id: nat) => ChildrenOf(nodes, id)
  }

  function NodesOf(bars: seq<Bar>): (r: seq<Node>)
    ensures |r| == |bars| && forall i :: 0 <= i < |bars| ==> r[i] == bars[i].node
  {
    seq(|bars|, i requires 0 <= i < |bars| => bars[i].node)
  }

  function Ids(ns: seq<Node>): (r: seq<nat>)
    ensures |r| == |ns| && forall i :: 0 <= i < |ns| ==> r[i] == ns[i].nodeId
  {
    seq(|ns|, i requires 0 <= i < |ns| => ns[i].nodeId)
  }

  function SetOf(ids: seq<nat>): set<nat> {
    set id | id in ids
  }

  /** The ids of the nodes on levels 1 to k. */
  ghost function IdsUpTo(nodes: Nodes, root: Node, k: nat, c: nat): seq<nat> {
    if k == 0 then [] else IdsUpTo(nodes, root, k - 1, c) + Ids(NodesOf(BarsAt(Kids(nodes), root, k, c)))
  }

  // ----- reading stored distances

  /** Stored distances are non-negative when the bars they decode to are in order. */
  lemma {:induction false} OrderedDistances(cells: seq<Cell>, bars: seq<Bar>, c: nat)
    requires |cells| == |bars| && Ordered(bars, c) && (bars != [] ==> bars[0].left >= 0)
    requires forall j :: 0 <= j < |cells| ==>
      Decode(cells)[j].offset == bars[j].left && cells[j].total == Total(bars[j].node, c)
    ensures forall j :: 0 <= j < |cells| ==> cells[j].offset >= 0
  {
    forall j | 0 <= j < |cells| ensures cells[j].offset >= 0 {
      DecodeAt(cells, j);
      if j > 0 {
        DecodeAt(cells, j - 1);
        assert cells[..j][..j - 1] == cells[..j - 1];
      }
    }
  }

  lemma {:induction false} DecodeAt(cells: seq<Cell>, j: nat)
    requires j < |cells|
    ensures Decode(cells)[j] == cells[j].(offset := End(cells[..j]) + cells[j].offset)
  {
    if j < |cells| - 1 {
      DecodeAt(cells[..|cells| - 1], j);
      assert cells[..|cells| - 1][..j] == cells[..j];
    }
  }

  lemma {:induction false} DecodeKeepsTotals(cells: seq<Cell>, j: nat)
    requires j < |cells|
    ensures Decode(cells)[j].total == cells[j].total && Decode(cells)[j].self == cells[j].self
  {
    DecodeAt(cells, j);
  }

  // ----- placing the children of one node

  function Offset(prependMap: map<nat, int>, id: nat): int {
    if id in prependMap then prependMap[id] else 0
  }

  lemma {:induction false} DecodeAppend(cells: seq<Cell>, x: Cell)
    ensures Decode(cells + [x]) == Decode(cells) + [x.(offset := End(cells) + x.offset)]
    ensures End(cells + [x]) == End(cells) + x.offset + x.total
  {
    assert (cells + [x])[..|cells|] == cells;
  }

  lemma {:induction false} TileAppend(left: int, ns: seq<Node>, n: Node, c: nat)
    ensures Tile(left, ns + [n], c) == Tile(left, ns, c) + [Bar(left + SumTotals(ns, c), n)]
    ensures SumTotals(ns + [n], c) == SumTotals(ns, c) + Total(n, c)
  {
    var all := ns + [n];
    forall k | 0 <= k <= |ns| ensures all[..k] == ns[..k] {
    }
    assert ns[..|ns|] == ns;
  }

  /** What placing children reached: cells of the level, gap before the next bar, gap recorded
      per node, ids seen. */
  datatype Pen = Pen(cells: seq<Cell>, prepend: int, prependMap: map<nat, int>, reviewed: set<nat>)

  /** The horizontal position of the pen. */
  function Position(pen: Pen): int {
    End(pen.cells) + pen.prepend
  }

  ghost predicate FreshIds(ns: seq<Node>, reviewed: set<nat>) {
    Distinct(Ids(ns)) && forall i :: 0 <= i < |ns| ==> ns[i].nodeId !in reviewed
  }

  /** The cells that pen added to pen0 show the children ns side by side. */
  ghost predicate DrewCells(pen0: Pen, pen: Pen, ns: seq<Node>, c: nat, names: NamesMap) {
    && Decode(pen.cells) == Decode(pen0.cells) + Paint(Tile(Position(pen0), ns, c), c, names)
    && Position(pen) == Position(pen0) + SumTotals(ns, c)
  }

  /** pen has recorded the gap before each of ns, and the ids of ns. */
  ghost predicate DrewIds(pen0: Pen, pen: Pen, ns: seq<Node>) {
    && |pen.cells| == |pen0.cells| + |ns| && pen0.cells <= pen.cells
    && pen.reviewed == pen0.reviewed + SetOf(Ids(ns))
    && (forall id :: id !in Ids(ns) ==> Offset(pen.prependMap, id) == Offset(pen0.prependMap, id))
    && (forall i :: 0 <= i < |ns| ==> Offset(pen.prependMap, ns[i].nodeId) == pen.cells[|pen0.cells| + i].offset)
  }

  function DrawOne(pen: Pen, n: Node, c: nat, names: NamesMap): Pen {
    Pen(pen.cells + [Cell(pen.prepend, Total(n, c), Self(n, c), NameIndex(names, n.fnId))],
        0, pen.prependMap[n.nodeId := pen.prepend], pen.reviewed + {n.nodeId})
  }

  lemma {:induction false} DrewOneCell(pen0: Pen, pen: Pen, ns: seq<Node>, n: Node, c: nat, names: NamesMap)
    requires DrewCells(pen0, pen, ns, c, names)
    ensures DrewCells(pen0, DrawOne(pen, n, c, names), ns + [n], c, names)
  {
    var left := Position(pen0);
    var cell := Cell(pen.prepend, Total(n, c), Self(n, c), NameIndex(names, n.fnId));
    DecodeAppend(pen.cells, cell);
    TileAppend(left, ns, n, c);
    assert Paint(Tile(left, ns + [n], c), c, names)
        == Paint(Tile(left, ns, c), c, names) + [cell.(offset := Position(pen))];
  }

  lemma {:induction false} DrewOneId(pen0: Pen, pen: Pen, ns: seq<Node>, n: Node, c: nat, names: NamesMap)
    requires DrewIds(pen0, pen, ns) && n.nodeId !in Ids(ns)
    ensures DrewIds(pen0, DrawOne(pen, n, c, names), ns + [n])
  {
    assert Ids(ns + [n]) == Ids(ns) + [n.nodeId];
    var pen' := DrawOne(pen, n, c, names);
    forall i | 0 <= i < |ns + [n]|
      ensures Offset(pen'.prependMap, (ns + [n])[i].nodeId) == pen'.cells[|pen0.cells| + i].offset
    {
      if i < |ns| {
        assert Ids(ns)[i] != n.nodeId;
      }
    }
  }

  lemma {:induction false} FreshAppend(ns: seq<Node>, n: Node, reviewed: set<nat>)
    ensures FreshIds(ns + [n], reviewed) <==>
            FreshIds(ns, reviewed) && n.nodeId !in reviewed && n.nodeId !in Ids(ns)
  {
    var all := ns + [n];
    assert Ids(all) == Ids(ns) + [n.nodeId];
    if FreshIds(all, reviewed) {
      assert all[|ns|] == n;
      FreshPrefix(all, |ns|, reviewed);
      assert all[..|ns|] == ns;
      forall i | 0 <= i < |ns| ensures Ids(ns)[i] != n.nodeId {
        assert Ids(all)[i] != Ids(all)[|ns|];
      }
    }
  }

  lemma {:induction false} FreshPrefix(ns: seq<Node>, i: nat, reviewed: set<nat>)
    requires i <= |ns| && FreshIds(ns, reviewed)
    ensures FreshIds(ns[..i], reviewed)
  {
    forall j, k | 0 <= j < k < i ensures Ids(ns[..i])[j] != Ids(ns[..i])[k] {
      assert Ids(ns)[j] != Ids(ns)[k];
    }
  }

  /** The inner loop of BFS; fails on the first id that was seen before. */
  method PlaceChildren(children: seq<Node>, c: nat, names: NamesMap, pen0: Pen) returns (ok: bool, pen: Pen)
    ensures ok <==> FreshIds(children, pen0.reviewed)
    ensures ok ==> DrewCells(pen0, pen, children, c, names) && DrewIds(pen0, pen, children)
  {
    pen := pen0;
    assert Paint(Tile(Position(pen0), children[..0], c), c, names) == [];
    for i := 0 to |children|
      invariant FreshIds(children[..i], pen0.reviewed)
      invariant DrewCells(pen0, pen, children[..i], c, names) && DrewIds(pen0, pen, children[..i])
    {
      var child := children[i];
      FreshAppend(children[..i], child, pen0.reviewed);
      assert children[..i + 1] == children[..i] + [child];
      if child.nodeId in pen.reviewed {
        if FreshIds(children, pen0.reviewed) {
          FreshPrefix(children, i + 1, pen0.reviewed);
        }
        return false, pen;
      }
      DrewOneCell(pen0, pen, children[..i], child, c, names);
      DrewOneId(pen0, pen, children[..i], child, c, names);
      pen := DrawOne(pen, child, c, names);
    }
    assert children[..|children|] == children;
    ok := true;
  }

  // ----- one level

  lemma {:induction false} FreshConcat(a: seq<Node>, b: seq<Node>, reviewed: set<nat>)
    ensures FreshIds(a + b, reviewed) <==> FreshIds(a, reviewed) && FreshIds(b, reviewed + SetOf(Ids(a)))
  {
    assert Ids(a + b) == Ids(a) + Ids(b);
    if FreshIds(a + b, reviewed) {
      FreshPrefix(a + b, |a|, reviewed);
      assert (a + b)[..|a|] == a;
      forall i | 0 <= i < |b| ensures b[i].nodeId !in reviewed && b[i].nodeId !in Ids(a) {
        assert (a + b)[|a| + i] == b[i];
        assert forall k :: 0 <= k < |a| ==> Ids(a + b)[k] != Ids(a + b)[|a| + i];
      }
      forall i, j | 0 <= i < j < |b| ensures Ids(b)[i] != Ids(b)[j] {
        assert Ids(a + b)[|a| + i] != Ids(a + b)[|a| + j];
      }
    }
  }

  lemma {:induction false} DrewIdsConcat(p0: Pen, p1: Pen, p2: Pen, a: seq<Node>, b: seq<Node>)
    requires DrewIds(p0, p1, a) && DrewIds(p1, p2, b) && FreshIds(b, p1.reviewed)
    ensures DrewIds(p0, p2, a + b)
  {
    assert Ids(a + b) == Ids(a) + Ids(b);
    assert SetOf(Ids(a + b)) == SetOf(Ids(a)) + SetOf(Ids(b));
    forall i | 0 <= i < |a + b|
      ensures Offset(p2.prependMap, (a + b)[i].nodeId) == p2.cells[|p0.cells| + i].offset
    {
      if i < |a| {
        assert Ids(a)[i] in SetOf(Ids(a));
        assert p2.cells[|p0.cells| + i] == p1.cells[|p0.cells| + i];
      }
    }
  }

  /** The recorded gap of every bar is its distance from the end of the bar before it. */
  ghost predicate Gaps(prependMap: map<nat, int>, bars: seq<Bar>, c: nat) {
    forall j {:trigger bars[j]} :: 0 <= j < |bars| ==>
      Offset(prependMap, bars[j].node.nodeId) == bars[j].left - EndOf(bars[..j], c)
  }

  function EndOf(bars: seq<Bar>, c: nat): int {
    if bars == [] then 0 else Right(bars[|bars| - 1], c)
  }

  lemma {:induction false} EndDecoded(cells: seq<Cell>, bars: seq<Bar>, c: nat, names: NamesMap)
    requires Decode(cells) == Paint(bars, c, names)
    ensures End(cells) == EndOf(bars, c) && |cells| == |bars|
    ensures forall i {:trigger cells[i]} :: 0 <= i < |cells| ==> cells[i].offset == bars[i].left - EndOf(bars[..i], c)
  {
    if cells != [] {
      var n := |cells| - 1;
      assert |cells| == |Decode(cells)| == |bars|;
      assert Decode(cells[..n]) == Decode(cells)[..n] == Paint(bars[..n], c, names);
      EndDecoded(cells[..n], bars[..n], c, names);
      assert Decode(cells)[n] == Paint(bars, c, names)[n];
      forall i | 0 <= i < n ensures cells[i].offset == bars[i].left - EndOf(bars[..i], c) {
        assert bars[..n][..i] == bars[..i];
      }
    }
  }

  lemma {:induction false} ExpandOne(kids: nat -> seq<Node>, bars: seq<Bar>, j: nat, c: nat)
    requires j < |bars|
    ensures Expand(kids, bars[..j + 1], c) == Expand(kids, bars[..j], c) + Tile(bars[j].left, kids(bars[j].node.nodeId), c)
    ensures NodesOf(Expand(kids, bars[..j + 1], c)) == NodesOf(Expand(kids, bars[..j], c)) + kids(bars[j].node.nodeId)
  {
    assert bars[..j + 1][..j] == bars[..j];
  }

  lemma {:induction false} FreshExpandPrefix(kids: nat -> seq<Node>, bars: seq<Bar>, j: nat, c: nat, reviewed: set<nat>)
    requires j <= |bars| && FreshIds(NodesOf(Expand(kids, bars, c)), reviewed)
    ensures FreshIds(NodesOf(Expand(kids, bars[..j], c)), reviewed)
    decreases |bars|
  {
    if j == |bars| {
      assert bars[..j] == bars;
    } else {
      var n := |bars| - 1;
      ExpandOne(kids, bars, n, c);
      assert bars[..n + 1] == bars;
      FreshConcat(NodesOf(Expand(kids, bars[..n], c)), kids(bars[n].node.nodeId), reviewed);
      FreshExpandPrefix(kids, bars[..n], j, c, reviewed);
      assert bars[..n][..j] == bars[..j];
    }
  }

  lemma {:induction false} PaintConcat(a: seq<Bar>, b: seq<Bar>, c: nat, names: NamesMap)
    ensures Paint(a + b, c, names) == Paint(a, c, names) + Paint(b, c, names)
  {
  }

  ghost predicate AllAdditive(kids: nat -> seq<Node>, bars: seq<Bar>, c: nat) {
    forall j :: 0 <= j < |bars| ==> AdditiveNode(kids, bars[j].node, c)
  }

  /** after extends the drawing of pen by the children ns, from position left. */
  ghost predicate Extended(pen: Pen, after: Pen, left: int, ns: seq<Node>, c: nat, names: NamesMap) {
    Decode(after.cells) == Decode(pen.cells) + Paint(Tile(left, ns, c), c, names)
  }

  /** after is pen once the children ns of parent were drawn from its left edge. */
  ghost predicate ParentDrawn(pen: Pen, after: Pen, parent: Node, ns: seq<Node>, c: nat, names: NamesMap) {
    var left := Position(pen) + Offset(pen.prependMap, parent.nodeId);
    && DrewIds(pen, after, ns)
    && Extended(pen, after, left, ns, c, names)
    && (Total(parent, c) == Self(parent, c) + SumTotals(ns, c) ==> Position(after) == left + Total(parent, c))
  }

  lemma {:induction false} LeafDrawn(pen: Pen, parent: Node, c: nat, names: NamesMap)
    ensures ParentDrawn(pen, pen.(prepend := pen.prepend + Offset(pen.prependMap, parent.nodeId) + Total(parent, c)),
                        parent, [], c, names)
  {
    assert Paint(Tile(Position(pen) + Offset(pen.prependMap, parent.nodeId), [], c), c, names) == [];
  }

  lemma {:induction false} InnerDrawn(pen: Pen, at: Pen, drawn: Pen, after: Pen, parent: Node, ns: seq<Node>, c: nat, names: NamesMap)
    requires at == pen.(prepend := pen.prepend + Offset(pen.prependMap, parent.nodeId))
    requires after == drawn.(prepend := drawn.prepend + Self(parent, c))
    requires DrewCells(at, drawn, ns, c, names) && DrewIds(at, drawn, ns)
    ensures ParentDrawn(pen, after, parent, ns, c, names)
  {
    assert Position(at) == Position(pen) + Offset(pen.prependMap, parent.nodeId);
    assert Position(after) == Position(drawn) + Self(parent, c);
    assert DrewIds(pen, after, ns);
  }

  /** Draws the children of one node, starting at the node's own left edge. */
  method PlaceParent(nodes: Nodes, parent: Node, c: nat, names: NamesMap, pen: Pen) returns (ok: bool, after: Pen)
    ensures ok <==> FreshIds(ChildrenOf(nodes, parent.nodeId), pen.reviewed)
    ensures ok ==> ParentDrawn(pen, after, parent, ChildrenOf(nodes, parent.nodeId), c, names)
  {
    var prepend := pen.prepend + Offset(pen.prependMap, parent.nodeId);
    if parent.nodeId !in nodes {
      LeafDrawn(pen, parent, c, names);
      return true, pen.(prepend := prepend + Total(parent, c));
    }
    var drawn;
    ok, drawn := PlaceChildren(nodes[parent.nodeId], c, names, pen.(prepend := prepend));
    after := drawn.(prepend := drawn.prepend + Self(parent, c));
    if ok {
      InnerDrawn(pen, pen.(prepend := prepend), drawn, after, parent, nodes[parent.nodeId], c, names);
    }
  }

  /** The picture drawn so far: the level below the first j bars, pen at the end of bar j. */
  ghost predicate Level(kids: nat -> seq<Node>, bars: seq<Bar>, j: nat, pen: Pen, c: nat, names: NamesMap)
    requires j <= |bars|
  {
    Decode(pen.cells) == Paint(Expand(kids, bars[..j], c), c, names) && Position(pen) == EndOf(bars[..j], c)
  }

  lemma {:induction false} LevelStep(kids: nat -> seq<Node>, bars: seq<Bar>, j: nat, pen: Pen, after: Pen, c: nat, names: NamesMap)
    requires j < |bars| && Level(kids, bars, j, pen, c, names)
    requires Position(after) == bars[j].left + Total(bars[j].node, c)
    requires Decode(after.cells) == Decode(pen.cells) + Paint(Tile(bars[j].left, kids(bars[j].node.nodeId), c), c, names)
    ensures Level(kids, bars, j + 1, after, c, names)
  {
    ExpandOne(kids, bars, j, c);
    PaintConcat(Expand(kids, bars[..j], c), Tile(bars[j].left, kids(bars[j].node.nodeId), c), c, names);
  }

  lemma {:induction false} NotYetDrawn(start: Pen, pen: Pen, next: seq<Node>, id: nat)
    requires FreshIds(next, start.reviewed) && DrewIds(start, pen, next) && (next == [] || id in start.reviewed)
    ensures Offset(pen.prependMap, id) == Offset(start.prependMap, id)
  {
  }

  ghost predicate GapsAddUp(kids: nat -> seq<Node>, bars: seq<Bar>, prependMap: map<nat, int>, c: nat) {
    AllAdditive(kids, bars, c) && Gaps(prependMap, bars, c)
  }

  /** Ids of the current level that may still be looked up were seen on the level above. */
  ghost predicate SeenBefore(bars: seq<Bar>, reviewed: set<nat>) {
    |bars| <= 1 || forall j :: 0 <= j < |bars| ==> bars[j].node.nodeId in reviewed
  }

  /** What the outer loop of BFS keeps while it walks the bars of a level. */
  ghost predicate Progress(kids: nat -> seq<Node>, bars: seq<Bar>, j: nat, start: Pen, pen: Pen,
                           next: seq<Node>, c: nat, names: NamesMap)
    requires j <= |bars|
  {
    && next == NodesOf(Expand(kids, bars[..j], c))
    && FreshIds(next, start.reviewed) && DrewIds(start, pen, next)
    && (GapsAddUp(kids, bars, start.prependMap, c) ==> Level(kids, bars, j, pen, c, names))
  }

  lemma {:induction false} LevelAdvance(kids: nat -> seq<Node>, bars: seq<Bar>, j: nat, left: int, pen: Pen, after: Pen,
                     c: nat, names: NamesMap)
    requires j < |bars| && Level(kids, bars, j, pen, c, names) && left == bars[j].left
    requires Extended(pen, after, left, kids(bars[j].node.nodeId), c, names)
    requires Position(after) == left + Total(bars[j].node, c)
    ensures Level(kids, bars, j + 1, after, c, names)
  {
    LevelStep(kids, bars, j, pen, after, c, names);
  }

  lemma {:induction false} NextLeft(kids: nat -> seq<Node>, bars: seq<Bar>, j: nat, start: Pen, pen: Pen,
                 next: seq<Node>, c: nat, names: NamesMap)
    requires j < |bars| && SeenBefore(bars, start.reviewed)
    requires Progress(kids, bars, j, start, pen, next, c, names)
    requires GapsAddUp(kids, bars, start.prependMap, c)
    ensures Position(pen) + Offset(pen.prependMap, bars[j].node.nodeId) == bars[j].left
    ensures AdditiveNode(kids, bars[j].node, c)
  {
    NotYetDrawn(start, pen, next, bars[j].node.nodeId);
    assert Offset(start.prependMap, bars[j].node.nodeId) == bars[j].left - EndOf(bars[..j], c);
  }

  lemma {:induction false} ProgressStep(kids: nat -> seq<Node>, bars: seq<Bar>, j: nat, start: Pen, pen: Pen,
                     next: seq<Node>, after: Pen, c: nat, names: NamesMap)
    requires j < |bars| && SeenBefore(bars, start.reviewed)
    requires Progress(kids, bars, j, start, pen, next, c, names)
    requires FreshIds(kids(bars[j].node.nodeId), pen.reviewed)
    requires ParentDrawn(pen, after, bars[j].node, kids(bars[j].node.nodeId), c, names)
    ensures Progress(kids, bars, j + 1, start, after, next + kids(bars[j].node.nodeId), c, names)
  {
    var id := bars[j].node.nodeId;
    assert GapsAddUp(kids, bars, start.prependMap, c) ==> Level(kids, bars, j + 1, after, c, names) by {
      if GapsAddUp(kids, bars, start.prependMap, c) {
        NextLeft(kids, bars, j, start, pen, next, c, names);
        LevelAdvance(kids, bars, j, Position(pen) + Offset(pen.prependMap, id), pen, after, c, names);
      }
    }
    ExpandOne(kids, bars, j, c);
    FreshConcat(next, kids(id), start.reviewed);
    DrewIdsConcat(start, pen, after, next, kids(id));
  }

  lemma {:induction false} ProgressStops(kids: nat -> seq<Node>, bars: seq<Bar>, j: nat, start: Pen, pen: Pen,
                      next: seq<Node>, c: nat, names: NamesMap)
    requires j < |bars| && Progress(kids, bars, j, start, pen, next, c, names)
    requires !FreshIds(kids(bars[j].node.nodeId), pen.reviewed)
    ensures !FreshIds(NodesOf(Expand(kids, bars, c)), start.reviewed)
  {
    ExpandOne(kids, bars, j, c);
    FreshConcat(next, kids(bars[j].node.nodeId), start.reviewed);
    if FreshIds(NodesOf(Expand(kids, bars, c)), start.reviewed) {
      FreshExpandPrefix(kids, bars, j + 1, c, start.reviewed);
    }
  }

  /** One pass of the outer loop of BFS: the level below `current`, which shows as bars.
      When the nodes add up, the cells decode to the bars of that level. */
  method PlaceLevel(nodes: Nodes, current: seq<Node>, c: nat, names: NamesMap, prependMap: map<nat, int>,
                    reviewed: set<nat>, ghost bars: seq<Bar>)
    returns (ok: bool, pen: Pen, next: seq<Node>)
    requires current == NodesOf(bars) && SeenBefore(bars, reviewed)
    ensures ok <==> FreshIds(NodesOf(Expand(Kids(nodes), bars, c)), reviewed)
    ensures ok ==> next == NodesOf(Expand(Kids(nodes), bars, c))
    ensures ok ==> DrewIds(Pen([], 0, prependMap, reviewed), pen, next)
    ensures ok && GapsAddUp(Kids(nodes), bars, prependMap, c) ==>
      Decode(pen.cells) == Paint(Expand(Kids(nodes), bars, c), c, names)
  {
    ghost var start := Pen([], 0, prependMap, reviewed);
    pen, next := Pen([], 0, prependMap, reviewed), [];
    for j := 0 to |current|
      invariant Progress(Kids(nodes), bars, j, start, pen, next, c, names)
    {
      var parent := current[j];
      assert parent == bars[j].node && Kids(nodes)(parent.nodeId) == ChildrenOf(nodes, parent.nodeId);
      var good, after := PlaceParent(nodes, parent, c, names, pen);
      if !good {
        ProgressStops(Kids(nodes), bars, j, start, pen, next, c, names);
        return false, pen, next;
      }
      ProgressStep(Kids(nodes), bars, j, start, pen, next, after, c, names);
      next := next + Kids(nodes)(parent.nodeId);
      pen := after;
    }
    assert bars[..|bars|] == bars;
    ok := true;
  }

  // ----- the whole graph

  function AllIds(nodes: Nodes): set<nat> {
    set p, i | p in nodes && 0 <= i < |nodes[p]| :: nodes[p][i].nodeId
  }

  /** The node standing for the whole profile: its total in column c, no self. */
  function RootNode(nodes: Nodes, columns: nat, c: nat): Node {
    var total := SumTotals(ChildrenOf(nodes, 0), c);
    Node(0, 0, seq(columns, i => 0), seq(columns, i => if i == c then total else 0))
  }

  /** Total = Self + children for every node of the tree. */
  ghost predicate AdditiveTree(nodes: Nodes, c: nat) {
    forall p, i :: p in nodes && 0 <= i < |nodes[p]| ==> AdditiveNode(Kids(nodes), nodes[p][i], c)
  }

  /** What assertPositive checks, for one column. */
  ghost predicate PositiveSelf(nodes: Nodes, c: nat) {
    forall p, i :: p in nodes && 0 <= i < |nodes[p]| ==> Self(nodes[p][i], c) >= 0
  }

  lemma {:induction false} ExpandFromTree(nodes: Nodes, bars: seq<Bar>, c: nat, i: nat)
    requires i < |Expand(Kids(nodes), bars, c)|
    ensures exists p, j :: p in nodes && 0 <= j < |nodes[p]| && nodes[p][j] == Expand(Kids(nodes), bars, c)[i].node
  {
    var n := |bars| - 1;
    var below := Expand(Kids(nodes), bars[..n], c);
    if i < |below| {
      ExpandFromTree(nodes, bars[..n], c, i);
    } else {
      var p := bars[n].node.nodeId;
      assert Kids(nodes)(p) == ChildrenOf(nodes, p);
      assert nodes[p][i - |below|] == Expand(Kids(nodes), bars, c)[i].node;
    }
  }

  lemma {:induction false} AdditiveLevels(nodes: Nodes, root: Node, k: nat, c: nat)
    requires AdditiveTree(nodes, c) && AdditiveNode(Kids(nodes), root, c)
    ensures AllAdditive(Kids(nodes), BarsAt(Kids(nodes), root, k, c), c)
  {
    var bars := BarsAt(Kids(nodes), root, k, c);
    forall i | 0 <= i < |bars| ensures AdditiveNode(Kids(nodes), bars[i].node, c) {
      if k > 0 {
        ExpandFromTree(nodes, BarsAt(Kids(nodes), root, k - 1, c), c, i);
      }
    }
  }

  lemma {:induction false} LevelIdsInTree(nodes: Nodes, bars: seq<Bar>, c: nat)
    ensures SetOf(Ids(NodesOf(Expand(Kids(nodes), bars, c)))) <= AllIds(nodes)
  {
    var next := NodesOf(Expand(Kids(nodes), bars, c));
    forall i | 0 <= i < |next| ensures next[i].nodeId in AllIds(nodes) {
      ExpandFromTree(nodes, bars, c, i);
    }
  }

  /** After a level was drawn, its recorded gaps are the gaps between its bars. */
  lemma {:induction false} GapsOfLevel(start: Pen, pen: Pen, bars: seq<Bar>, c: nat, names: NamesMap)
    requires DrewIds(start, pen, NodesOf(bars)) && start.cells == []
    requires Decode(pen.cells) == Paint(bars, c, names)
    ensures Gaps(pen.prependMap, bars, c)
  {
    EndDecoded(pen.cells, bars, c, names);
    forall j | 0 <= j < |bars|
      ensures Offset(pen.prependMap, bars[j].node.nodeId) == bars[j].left - EndOf(bars[..j], c)
    {
      assert Offset(pen.prependMap, NodesOf(bars)[j].nodeId) == pen.cells[j].offset;
    }
  }

  lemma {:induction false} IdsGrow(a: seq<nat>, ns: seq<Node>)
    requires Distinct(a)
    ensures Distinct(a + Ids(ns)) <==> FreshIds(ns, SetOf(a))
    ensures SetOf(a + Ids(ns)) == SetOf(a) + SetOf(Ids(ns))
  {
    var all := a + Ids(ns);
    if FreshIds(ns, SetOf(a)) {
      forall i, j | 0 <= i < j < |all| ensures all[i] != all[j] {
        if i < |a| <= j {
          assert a[i] in SetOf(a) && ns[j - |a|].nodeId !in SetOf(a);
        }
      }
    }
    if Distinct(all) {
      forall i | 0 <= i < |ns| ensures ns[i].nodeId !in SetOf(a) {
        assert all[|a| + i] == ns[i].nodeId;
        forall k | 0 <= k < |a| ensures a[k] != ns[i].nodeId {
          assert all[k] != all[|a| + i];
        }
      }
      forall i, j | 0 <= i < j < |ns| ensures Ids(ns)[i] != Ids(ns)[j] {
        assert all[|a| + i] != all[|a| + j];
      }
    }
  }

  /** Levels 1 to |res| - 1 decode to the bars of the picture. */
  ghost predicate Drawn(nodes: Nodes, root: Node, res: seq<seq<Cell>>, c: nat, names: NamesMap) {
    forall k :: 1 <= k < |res| ==> Decode(res[k]) == Paint(BarsAt(Kids(nodes), root, k, c), c, names)
  }

  lemma {:induction false} NextSeen(bars: seq<Bar>, reviewed: set<nat>, before: set<nat>)
    requires reviewed == before + SetOf(Ids(NodesOf(bars))) && FreshIds(NodesOf(bars), before)
    ensures SeenBefore(bars, reviewed)
    ensures bars != [] ==> before < reviewed
  {
    forall j | 0 <= j < |bars| ensures bars[j].node.nodeId in reviewed && bars[j].node.nodeId !in before {
      assert Ids(NodesOf(bars))[j] == bars[j].node.nodeId;
      assert NodesOf(bars)[j].nodeId !in before;
    }
    if bars != [] {
      assert bars[0].node.nodeId in reviewed && bars[0].node.nodeId !in before;
    }
  }

  /** The ids of the levels up to k are reviewed, each met once. */
  ghost predicate SeenTo(nodes: Nodes, root: Node, k: nat, c: nat, reviewed: set<nat>) {
    && Distinct(IdsUpTo(nodes, root, k, c)) && reviewed == SetOf(IdsUpTo(nodes, root, k, c))
    && reviewed <= AllIds(nodes) && SeenBefore(BarsAt(Kids(nodes), root, k, c), reviewed)
  }

  lemma {:induction false} SeenNext(nodes: Nodes, root: Node, k: nat, c: nat, reviewed: set<nat>, more: set<nat>)
    requires SeenTo(nodes, root, k, c, reviewed)
    requires var below := NodesOf(BarsAt(Kids(nodes), root, k + 1, c));
             FreshIds(below, reviewed) && more == reviewed + SetOf(Ids(below))
    ensures SeenTo(nodes, root, k + 1, c, more)
    ensures BarsAt(Kids(nodes), root, k + 1, c) != [] ==> reviewed < more
  {
    var below := BarsAt(Kids(nodes), root, k + 1, c);
    IdsGrow(IdsUpTo(nodes, root, k, c), NodesOf(below));
    LevelIdsInTree(nodes, BarsAt(Kids(nodes), root, k, c), c);
    NextSeen(below, more, reviewed);
  }

  /** BFS has drawn the levels up to k and is about to draw level k + 1. */
  ghost predicate AtLevel(nodes: Nodes, root: Node, k: nat, c: nat, names: NamesMap, res: seq<seq<Cell>>,
                          prependMap: map<nat, int>, reviewed: set<nat>) {
    var bars := BarsAt(Kids(nodes), root, k, c);
    && |res| == k + 1 && SeenTo(nodes, root, k, c, reviewed)
    && (AdditiveTree(nodes, c) ==> Drawn(nodes, root, res, c, names) && Gaps(prependMap, bars, c))
  }

  lemma {:induction false} AtRoot(nodes: Nodes, root: Node, c: nat, names: NamesMap, res: seq<seq<Cell>>)
    requires |res| == 1
    ensures AtLevel(nodes, root, 0, c, names, res, map[], {})
    ensures [root] == NodesOf(BarsAt(Kids(nodes), root, 0, c))
  {
  }

  lemma {:induction false} RootAdditive(nodes: Nodes, columns: nat, c: nat)
    requires c < columns
    ensures AdditiveNode(Kids(nodes), RootNode(nodes, columns, c), c)
  {
    assert Kids(nodes)(0) == ChildrenOf(nodes, 0);
  }

  lemma {:induction false} AtNextLevel(nodes: Nodes, root: Node, k: nat, c: nat, names: NamesMap, res: seq<seq<Cell>>,
                    prependMap: map<nat, int>, reviewed: set<nat>, pen: Pen)
    requires AtLevel(nodes, root, k, c, names, res, prependMap, reviewed)
    requires var bars, below := BarsAt(Kids(nodes), root, k, c), BarsAt(Kids(nodes), root, k + 1, c);
             && FreshIds(NodesOf(below), reviewed)
             && DrewIds(Pen([], 0, prependMap, reviewed), pen, NodesOf(below))
             && (AdditiveTree(nodes, c) ==> Decode(pen.cells) == Paint(below, c, names))
    ensures AtLevel(nodes, root, k + 1, c, names, res + [pen.cells], pen.prependMap, pen.reviewed)
    ensures BarsAt(Kids(nodes), root, k + 1, c) != [] ==> reviewed < pen.reviewed
  {
    var below := BarsAt(Kids(nodes), root, k + 1, c);
    SeenNext(nodes, root, k, c, reviewed, pen.reviewed);
    if AdditiveTree(nodes, c) {
      GapsOfLevel(Pen([], 0, prependMap, reviewed), pen, below, c, names);
    }
  }

  /** Every id on the levels of res is met once; the levels are all there are, unless the next
      one would repeat an id; on an additive tree each level decodes to its bars. */
  ghost predicate Layout(nodes: Nodes, root: Node, res: seq<seq<Cell>>, c: nat, names: NamesMap) {
    && |res| > 0 && Distinct(IdsUpTo(nodes, root, |res| - 1, c))
    && (BarsAt(Kids(nodes), root, |res| - 1, c) == [] || !Distinct(IdsUpTo(nodes, root, |res|, c)))
    && (AdditiveTree(nodes, c) ==> Drawn(nodes, root, res, c, names))
  }

  lemma {:induction false} LayoutDone(nodes: Nodes, root: Node, k: nat, c: nat, names: NamesMap, res: seq<seq<Cell>>,
                   prependMap: map<nat, int>, reviewed: set<nat>)
    requires AtLevel(nodes, root, k, c, names, res, prependMap, reviewed)
    requires NodesOf(BarsAt(Kids(nodes), root, k, c)) == [] ||
             !FreshIds(NodesOf(BarsAt(Kids(nodes), root, k + 1, c)), reviewed)
    ensures Layout(nodes, root, res, c, names)
  {
    IdsGrow(IdsUpTo(nodes, root, k, c), NodesOf(BarsAt(Kids(nodes), root, k + 1, c)));
  }

  lemma {:induction false} AdditiveHere(nodes: Nodes, columns: nat, k: nat, c: nat)
    requires c < columns
    ensures AdditiveTree(nodes, c) ==>
      AllAdditive(Kids(nodes), BarsAt(Kids(nodes), RootNode(nodes, columns, c), k, c), c)
  {
    if AdditiveTree(nodes, c) {
      RootAdditive(nodes, columns, c);
      AdditiveLevels(nodes, RootNode(nodes, columns, c), k, c);
    }
  }

  function TopLevel(nodes: Nodes, c: nat): seq<Cell> {
    [Cell(0, SumTotals(ChildrenOf(nodes, 0), c), 0, 0)]
  }

  /** Level k + 1, from the nodes of level k. */
  method PlaceNext(nodes: Nodes, columns: nat, c: nat, names: NamesMap, current: seq<Node>, ghost k: nat,
                   ghost res: seq<seq<Cell>>, prependMap: map<nat, int>, reviewed: set<nat>)
    returns (ok: bool, pen: Pen, next: seq<Node>)
    requires c < columns && current == NodesOf(BarsAt(Kids(nodes), RootNode(nodes, columns, c), k, c))
    requires AtLevel(nodes, RootNode(nodes, columns, c), k, c, names, res, prependMap, reviewed)
    ensures !ok ==> Layout(nodes, RootNode(nodes, columns, c), res, c, names)
    ensures ok ==> next == NodesOf(BarsAt(Kids(nodes), RootNode(nodes, columns, c), k + 1, c))
    ensures ok && next != [] ==> reviewed < pen.reviewed <= AllIds(nodes)
    ensures ok ==>
      AtLevel(nodes, RootNode(nodes, columns, c), k + 1, c, names, res + [pen.cells], pen.prependMap, pen.reviewed)
  {
    ghost var root := RootNode(nodes, columns, c);
    ok, pen, next := PlaceLevel(nodes, current, c, names, prependMap, reviewed, BarsAt(Kids(nodes), root, k, c));
    if ok {
      AdditiveHere(nodes, columns, k, c);
      AtNextLevel(nodes, root, k, c, names, res, prependMap, reviewed, pen);
    } else {
      LayoutDone(nodes, root, k, c, names, res, prependMap, reviewed);
    }
  }

  /** Tree.BFS for one sample type. It stops on every tree, cyclic ones included. */
  method Bfs(nodes: Nodes, columns: nat, c: nat, names: NamesMap) returns (res: seq<seq<Cell>>)
    requires c < columns
    ensures |res| > 0 && res[0] == [Cell(0, SumTotals(ChildrenOf(nodes, 0), c), 0, 0)]
    ensures Layout(nodes, RootNode(nodes, columns, c), res, c, names)
  {
    var root := RootNode(nodes, columns, c);
    var top := TopLevel(nodes, c);
    res := [top];
    var prependMap: map<nat, int>, reviewed: set<nat> := map[], {};
    var current := [root];
    ghost var k := 0;
    AtRoot(nodes, root, c, names, res);
    while current != []
      invariant |res| > 0 && res[0] == top
      invariant current == NodesOf(BarsAt(Kids(nodes), root, k, c))
      invariant AtLevel(nodes, root, k, c, names, res, prependMap, reviewed)
      decreases AllIds(nodes) - reviewed, |current|
    {
      var ok, pen, next := PlaceNext(nodes, columns, c, names, current, k, res, prependMap, reviewed);
      if !ok {
        return;
      }
      res, current, prependMap, reviewed, k := res + [pen.cells], next, pen.prependMap, pen.reviewed, k + 1;
    }
    LayoutDone(nodes, root, k, c, names, res, prependMap, reviewed);
  }
}
