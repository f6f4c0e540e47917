/** computeFlameGraphDiff: both trees walked in lockstep, level by level, children from last to
    first; then the offsets of every level stored as distances. */
module FlameDiff {
  import opened Sequences
  import opened FlameBars
  import opened FlameLayout
  import opened FlameTree
  import opened FlameMerge
  import opened FlameCycles

  /** A node of the left tree, its partner in the right tree, and where their bars start. */
  datatype Entry = Entry(left: Node, right: Node, xLeft: int, xRight: int)

  datatype DiffCell = DiffCell(xLeft: int, leftTotal: int, leftSelf: int,
                               xRight: int, rightTotal: int, rightSelf: int, name: nat)

  // ----- what the walk visits

  function Rev(ns: seq<Node>): (r: seq<Node>)
    ensures |r| == |ns|
    ensures forall i {:trigger r[i]} :: 0 <= i < |ns| ==> r[i] == ns[|ns| - 1 - i]
  {
    seq(|ns|, i requires 0 <= i < |ns| => ns[|ns| - 1 - i])
  }

  /** What stands in for a right child that is not there. */
  const Missing: Node := Node(0, 0, [0], [0])

  /** The partners of the left children, in visiting order. */
  function Partners(ls: seq<Node>, rs: seq<Node>): (r: seq<Node>)
    ensures |r| == |ls|
  {
    seq(|ls|, i requires 0 <= i < |ls| => if |ls| - 1 - i < |rs| then rs[|ls| - 1 - i] else Missing)
  }

  /** Nodes paired and placed side by side, from the positions of e. */
  function Pair(e: Entry, ls: seq<Node>, rs: seq<Node>): (r: seq<Entry>)
    requires |ls| == |rs|
    ensures |r| == |ls|
    ensures forall i {:trigger r[i]} :: 0 <= i < |ls| ==>
      r[i] == Entry(ls[i], rs[i], e.xLeft + SumTotals(ls[..i], 0), e.xRight + SumTotals(rs[..i], 0))
  {
    seq(|ls|, i requires 0 <= i < |ls| =>
      Entry(ls[i], rs[i], e.xLeft + SumTotals(ls[..i], 0), e.xRight + SumTotals(rs[..i], 0)))
  }

  function Offspring(n1: Nodes, n2: Nodes, e: Entry): seq<Entry> {
    var ls, rs := ChildrenOf(n1, e.left.nodeId), ChildrenOf(n2, e.right.nodeId);
    Pair(e, Rev(ls), Partners(ls, rs))
  }

  function Below(n1: Nodes, n2: Nodes, es: seq<Entry>): seq<Entry> {
    if es == [] then [] else Below(n1, n2, es[..|es| - 1]) + Offspring(n1, n2, es[|es| - 1])
  }

  function PairsAt(n1: Nodes, n2: Nodes, e0: Entry, k: nat): seq<Entry> {
    if k == 0 then [e0] else Below(n1, n2, PairsAt(n1, n2, e0, k - 1))
  }

  function Root(nodes: Nodes): Node {
    Node(0, 0, [0], [SumTotals(ChildrenOf(nodes, 0), 0)])
  }

  function RootEntry(n1: Nodes, n2: Nodes): Entry {
    Entry(Root(n1), Root(n2), 0, 0)
  }

  // ----- the queue holds the rest of one level and the start of the next

  lemma {:induction false} BelowOne(n1: Nodes, n2: Nodes, es: seq<Entry>, i: nat)
    requires i < |es|
    ensures Below(n1, n2, es[..i + 1]) == Below(n1, n2, es[..i]) + Offspring(n1, n2, es[i])
  {
    assert es[..i + 1][..i] == es[..i];
  }

  /** The queue while entry i of `row` is next. */
  function Pending(n1: Nodes, n2: Nodes, row: seq<Entry>, i: nat): seq<Entry>
    requires i <= |row|
  {
    row[i..] + Below(n1, n2, row[..i])
  }

  lemma {:induction false} PendingNext(n1: Nodes, n2: Nodes, row: seq<Entry>, i: nat)
    requires i < |row|
    ensures var q := Pending(n1, n2, row, i);
            && q != [] && q[0] == row[i]
            && q[1..] + Offspring(n1, n2, q[0]) == Pending(n1, n2, row, i + 1)
  {
    BelowOne(n1, n2, row, i);
    var q, below := Pending(n1, n2, row, i), Below(n1, n2, row[..i]);
    assert q[1..] == row[i + 1..] + below;
    assert (row[i + 1..] + below) + Offspring(n1, n2, row[i]) == row[i + 1..] + (below + Offspring(n1, n2, row[i]));
  }

  lemma {:induction false} PendingRow(n1: Nodes, n2: Nodes, row: seq<Entry>)
    ensures Pending(n1, n2, row, |row|) == Below(n1, n2, row) == Pending(n1, n2, Below(n1, n2, row), 0)
  {
    assert row[..|row|] == row;
    var next := Below(n1, n2, row);
    assert next[0..] == next && next[..0] == [];
  }

  // ----- when the walk ends

  /** The queue after n turns of the loop, left as it is once it is empty. */
  function QueueAfter(n1: Nodes, n2: Nodes, n: nat): seq<Entry> {
    if n == 0 then [RootEntry(n1, n2)]
    else
      var q := QueueAfter(n1, n2, n - 1);
      if q == [] then [] else q[1..] + Offspring(n1, n2, q[0])
  }

  ghost predicate WalkEnds(n1: Nodes, n2: Nodes) {
    exists n: nat :: QueueAfter(n1, n2, n) == []
  }

  /** The turns that the levels before k take. */
  function Turns(n1: Nodes, n2: Nodes, k: nat): nat {
    if k == 0 then 0 else Turns(n1, n2, k - 1) + |PairsAt(n1, n2, RootEntry(n1, n2), k - 1)|
  }

  lemma {:induction false} QueueInRow(n1: Nodes, n2: Nodes, row: seq<Entry>, from: nat, i: nat)
    requires QueueAfter(n1, n2, from) == row && i <= |row|
    ensures QueueAfter(n1, n2, from + i) == Pending(n1, n2, row, i)
  {
    if i > 0 {
      QueueInRow(n1, n2, row, from, i - 1);
      PendingNext(n1, n2, row, i - 1);
    } else {
      assert row[..0] == [] && row[0..] == row;
    }
  }

  lemma {:induction false} QueueNextRow(n1: Nodes, n2: Nodes, row: seq<Entry>, from: nat)
    requires QueueAfter(n1, n2, from) == row
    ensures QueueAfter(n1, n2, from + |row|) == Below(n1, n2, row)
  {
    QueueInRow(n1, n2, row, from, |row|);
    PendingRow(n1, n2, row);
  }

  lemma {:induction false} QueueAtLevel(n1: Nodes, n2: Nodes, k: nat)
    ensures QueueAfter(n1, n2, Turns(n1, n2, k)) == PairsAt(n1, n2, RootEntry(n1, n2), k)
  {
    if k > 0 {
      QueueAtLevel(n1, n2, k - 1);
      QueueNextRow(n1, n2, PairsAt(n1, n2, RootEntry(n1, n2), k - 1), Turns(n1, n2, k - 1));
    }
  }

  lemma {:induction false} EmptyQueueStays(n1: Nodes, n2: Nodes, m: nat, n: nat)
    requires m <= n && QueueAfter(n1, n2, m) == []
    ensures QueueAfter(n1, n2, n) == []
  {
    if m < n {
      EmptyQueueStays(n1, n2, m, n - 1);
    }
  }

  /** The queue after some turns, out of a number that empties it. */
  ghost predicate TurnsLeft(n1: Nodes, n2: Nodes, queue: seq<Entry>, turns: nat, last: nat) {
    turns <= last && queue == QueueAfter(n1, n2, turns) && QueueAfter(n1, n2, last) == []
  }

  lemma {:induction false} NextTurn(n1: Nodes, n2: Nodes, queue: seq<Entry>, turns: nat, last: nat)
    requires TurnsLeft(n1, n2, queue, turns, last) && queue != []
    ensures turns < last && TurnsLeft(n1, n2, queue[1..] + Offspring(n1, n2, queue[0]), turns + 1, last)
  {
  }

  lemma {:induction false} TurnsGrow(n1: Nodes, n2: Nodes, k: nat)
    requires forall m: nat :: PairsAt(n1, n2, RootEntry(n1, n2), m) != []
    ensures Turns(n1, n2, k) >= k
  {
    if k > 0 {
      TurnsGrow(n1, n2, k - 1);
    }
  }

  /** The left side of the walk is the picture of the left tree, whatever the right tree is. */
  lemma {:induction false} LeftIsPicture(n1: Nodes, n2: Nodes, k: nat)
    ensures LeftBars(PairsAt(n1, n2, RootEntry(n1, n2), k)) == BarsAt(RevKids(n1), Root(n1), k, 0)
  {
    if k == 0 {
      assert LeftBars([RootEntry(n1, n2)]) == [Bar(0, Root(n1))];
    } else {
      LeftIsPicture(n1, n2, k - 1);
      BelowIsLeft(n1, n2, PairsAt(n1, n2, RootEntry(n1, n2), k - 1));
    }
  }

  /** A row of pairs shows, on each side, bars side by side. */
  lemma {:induction false} PairTiles(e: Entry, ls: seq<Node>, rs: seq<Node>)
    requires |ls| == |rs|
    ensures LeftBars(Pair(e, ls, rs)) == Tile(e.xLeft, ls, 0)
    ensures RightBars(Pair(e, ls, rs)) == Tile(e.xRight, rs, 0)
  {
  }

  lemma {:induction false} OffspringLeft(n1: Nodes, n2: Nodes, e: Entry)
    ensures LeftBars(Offspring(n1, n2, e)) == Tile(e.xLeft, RevKids(n1)(e.left.nodeId), 0)
  {
    var ls, rs := ChildrenOf(n1, e.left.nodeId), ChildrenOf(n2, e.right.nodeId);
    PairTiles(e, Rev(ls), Partners(ls, rs));
    assert RevKids(n1)(e.left.nodeId) == Rev(ls);
  }

  lemma {:induction false} BelowIsLeft(n1: Nodes, n2: Nodes, es: seq<Entry>)
    ensures LeftBars(Below(n1, n2, es)) == Expand(RevKids(n1), LeftBars(es), 0)
  {
    if es != [] {
      var n := |es| - 1;
      BelowIsLeft(n1, n2, es[..n]);
      assert LeftBars(es)[..n] == LeftBars(es[..n]);
      OffspringLeft(n1, n2, es[n]);
      BarsConcat(Below(n1, n2, es[..n]), Offspring(n1, n2, es[n]));
    }
  }

  lemma {:induction false} RevOrder(ns: seq<Node>)
    ensures multiset(Rev(ns)) == multiset(ns)
  {
    if ns != [] {
      var n := |ns| - 1;
      RevOrder(ns[..n]);
      assert Rev(ns) == [ns[n]] + Rev(ns[..n]);
      assert ns == ns[..n] + [ns[n]];
    }
  }

  lemma {:induction false} RevKidsOf(nodes: Nodes)
    ensures KidsOf(nodes, RevKids(nodes))
  {
    forall id ensures SameKids(nodes, RevKids(nodes), id) {
      RevOrder(ChildrenOf(nodes, id));
    }
  }

  lemma {:induction false} LevelEmptyIff(n1: Nodes, n2: Nodes, k: nat)
    ensures PairsAt(n1, n2, RootEntry(n1, n2), k) == [] <==> BarsAt(RevKids(n1), Root(n1), k, 0) == []
  {
    LeftIsPicture(n1, n2, k);
    assert |LeftBars(PairsAt(n1, n2, RootEntry(n1, n2), k))| == |PairsAt(n1, n2, RootEntry(n1, n2), k)|;
  }

  /** A level that is not there any more. */
  function Bound(nodes: Nodes): nat {
    |AllIds(nodes)| + 1
  }

  lemma {:induction false} AcyclicBound(n1: Nodes, n2: Nodes)
    requires Acyclic(n1)
    ensures PairsAt(n1, n2, RootEntry(n1, n2), Bound(n1)) == []
    ensures QueueAfter(n1, n2, Turns(n1, n2, Bound(n1))) == []
  {
    RevKidsOf(n1);
    AcyclicEnds(n1, RevKids(n1), Root(n1), 0);
    LevelEmptyIff(n1, n2, Bound(n1));
    QueueAtLevel(n1, n2, Bound(n1));
  }

  lemma {:induction false} EndedIsAcyclic(n1: Nodes, n2: Nodes, k: nat)
    requires PairsAt(n1, n2, RootEntry(n1, n2), k) == []
    ensures Acyclic(n1)
  {
    RevKidsOf(n1);
    LevelEmptyIff(n1, n2, k);
    if !Acyclic(n1) {
      CyclicGoesOn(n1, RevKids(n1), Root(n1), 0, k);
    }
  }

  /** The loop of computeFlameGraphDiff ends exactly when no id repeats on a way down from the
      root of the left tree. */
  lemma {:induction false} WalkEndsIff(n1: Nodes, n2: Nodes)
    ensures WalkEnds(n1, n2) <==> Acyclic(n1)
  {
    if Acyclic(n1) {
      AcyclicBound(n1, n2);
    } else if WalkEnds(n1, n2) {
      var n: nat :| QueueAfter(n1, n2, n) == [];
      forall m: nat ensures PairsAt(n1, n2, RootEntry(n1, n2), m) != [] {
        if PairsAt(n1, n2, RootEntry(n1, n2), m) == [] {
          EndedIsAcyclic(n1, n2, m);
        }
      }
      TurnsGrow(n1, n2, n);
      EmptyQueueStays(n1, n2, n, Turns(n1, n2, n));
      QueueAtLevel(n1, n2, n);
    }
  }

  // ----- names

  ghost predicate NamesOk(names: seq<string>, namesMap: map<nat, nat>) {
    |names| > 0 && forall id :: id in namesMap ==> namesMap[id] < |names|
  }

  /** The name shown for a node, taken from the left tree. */
  function NameOf(names: seq<string>, namesMap: map<nat, nat>, n: Node): string
    requires NamesOk(names, namesMap)
  {
    if n.fnId == 0 then "total" else names[NameIndex(namesMap, n.fnId)]
  }

  /** The result names listed so far, each once, found through the cache. */
  ghost predicate Cached(out: seq<string>, cache: map<string, nat>) {
    && (forall s :: s in cache ==> cache[s] < |out| && out[cache[s]] == s)
    && (forall i :: 0 <= i < |out| ==> out[i] in cache && cache[out[i]] == i)
  }

  method InternName(name: string, out: seq<string>, cache: map<string, nat>)
    returns (idx: nat, out': seq<string>, cache': map<string, nat>)
    requires Cached(out, cache)
    ensures Cached(out', cache') && out <= out' && idx < |out'| && out'[idx] == name
  {
    if name in cache {
      return cache[name], out, cache;
    }
    idx := |out|;
    out' := out + [name];
    cache' := cache[name := idx];
  }

  // ----- cells of the walk, with absolute offsets

  function CellOf(e: Entry, name: nat): DiffCell {
    DiffCell(e.xLeft, Total(e.left, 0), Self(e.left, 0), e.xRight, Total(e.right, 0), Self(e.right, 0), name)
  }

  ghost predicate Shows(cell: DiffCell, e: Entry, out: seq<string>, names: seq<string>, namesMap: map<nat, nat>)
    requires NamesOk(names, namesMap)
  {
    cell == CellOf(e, cell.name) && cell.name < |out| && out[cell.name] == NameOf(names, namesMap, e.left)
  }

  ghost predicate ShowsAll(cells: seq<DiffCell>, es: seq<Entry>, out: seq<string>,
                           names: seq<string>, namesMap: map<nat, nat>)
    requires NamesOk(names, namesMap)
  {
    |cells| == |es| && forall j :: 0 <= j < |es| ==> Shows(cells[j], es[j], out, names, namesMap)
  }

  // ----- the walk

  /** The level numbers in the queue: a times k, then b times k + 1. */
  ghost predicate Tagged(tags: seq<nat>, a: nat, b: nat, k: nat) {
    && |tags| == a + b
    && (forall j :: 0 <= j < a ==> tags[j] == k) && (forall j :: a <= j < a + b ==> tags[j] == k + 1)
  }

  ghost predicate TagsAdded(tags: seq<nat>, t: seq<nat>, n: nat, x: nat) {
    tags <= t && |t| == |tags| + n && forall j :: |tags| <= j < |t| ==> t[j] == x
  }

  lemma {:induction false} TagsStep(tags: seq<nat>, t: seq<nat>, a: nat, b: nat, n: nat, k: nat, x: nat)
    requires Tagged(tags, a, b, k) && a > 0 && TagsAdded(tags[1..], t, n, x) && x == k + 1
    ensures Tagged(t, a - 1, b + n, k)
  {
    forall j | 0 <= j < |t| ensures t[j] == if j < a - 1 then k else k + 1 {
      if j < |tags| - 1 {
        assert t[j] == tags[1..][j] == tags[j + 1];
      }
    }
  }

  lemma {:induction false} PairStep(e: Entry, a: seq<Node>, b: seq<Node>, d: nat)
    requires |a| == |b| && d < |a|
    ensures Pair(e, a, b)[..d + 1] == Pair(e, a, b)[..d]
      + [Entry(a[d], b[d], e.xLeft + SumTotals(a[..d], 0), e.xRight + SumTotals(b[..d], 0))]
    ensures PlacedTo(e, a, b, d + 1, e.xLeft + SumTotals(a[..d], 0) + Total(a[d], 0),
                     e.xRight + SumTotals(b[..d], 0) + Total(b[d], 0))
  {
    assert a[..d + 1][..d] == a[..d] && b[..d + 1][..d] == b[..d];
  }

  /** Where the next pair goes when d pairs are placed. */
  ghost predicate PlacedTo(e: Entry, a: seq<Node>, b: seq<Node>, d: nat, xLeft: int, xRight: int)
    requires d <= |a| == |b|
  {
    xLeft == e.xLeft + SumTotals(a[..d], 0) && xRight == e.xRight + SumTotals(b[..d], 0)
  }

  /** Adds the children of e to the queue, last child first, tagged with their level. */
  method PushChildren(n1: Nodes, n2: Nodes, e: Entry, level: nat, queue: seq<Entry>, tags: seq<nat>)
    returns (r: seq<Entry>, t: seq<nat>)
    ensures r == queue + Offspring(n1, n2, e)
    ensures TagsAdded(tags, t, |Offspring(n1, n2, e)|, level + 1)
  {
    var ls, rs := ChildrenOf(n1, e.left.nodeId), ChildrenOf(n2, e.right.nodeId);
    ghost var a, b := Rev(ls), Partners(ls, rs);
    ghost var all := Pair(e, a, b);
    r, t := queue, tags;
    var xLeft, xRight := e.xLeft, e.xRight;
    var i := |ls|;
    while i > 0
      invariant 0 <= i <= |ls| && r == queue + all[..|ls| - i] && TagsAdded(tags, t, |ls| - i, level + 1)
      invariant PlacedTo(e, a, b, |ls| - i, xLeft, xRight)
    {
      i := i - 1;
      ghost var d := |ls| - 1 - i;
      var childLeft := ls[i];
      var childRight := if i < |rs| then rs[i] else Missing;
      assert a[d] == childLeft && b[d] == childRight;
      PairStep(e, a, b, d);
      r, t := r + [Entry(childLeft, childRight, xLeft, xRight)], t + [level + 1];
      xLeft, xRight := xLeft + Total(childLeft, 0), xRight + Total(childRight, 0);
    }
    assert all[..|ls|] == all;
  }

  /** Queue and level numbers while entry i of `row`, which is level k, is next. */
  ghost predicate QueueOf(n1: Nodes, n2: Nodes, row: seq<Entry>, k: nat, i: nat, queue: seq<Entry>, tags: seq<nat>)
    requires i <= |row|
  {
    && queue == Pending(n1, n2, row, i)
    && Tagged(tags, |row| - i, |Below(n1, n2, row[..i])|, k)
  }

  ghost predicate Inhabited(n1: Nodes, n2: Nodes, e0: Entry, k: nat) {
    forall m :: 0 <= m < k ==> PairsAt(n1, n2, e0, m) != []
  }

  lemma {:induction false} InhabitedOn(n1: Nodes, n2: Nodes, e0: Entry, k: nat)
    requires Inhabited(n1, n2, e0, k) && PairsAt(n1, n2, e0, k) != []
    ensures Inhabited(n1, n2, e0, k + 1)
  {
  }

  /** Entry i of level k is next; the levels before k are not empty. */
  ghost predicate QueueAt(n1: Nodes, n2: Nodes, e0: Entry, k: nat, i: nat, queue: seq<Entry>, tags: seq<nat>) {
    var row := PairsAt(n1, n2, e0, k);
    && i <= |row| && (i == |row| ==> row == [])
    && QueueOf(n1, n2, row, k, i, queue, tags) && Inhabited(n1, n2, e0, k)
  }

  lemma {:induction false} QueueOfStep(n1: Nodes, n2: Nodes, row: seq<Entry>, k: nat, i: nat, queue: seq<Entry>, tags: seq<nat>,
                    t: seq<nat>, x: nat)
    requires i < |row| && QueueOf(n1, n2, row, k, i, queue, tags) && |tags| > 0 && x == k + 1
    requires TagsAdded(tags[1..], t, |Offspring(n1, n2, row[i])|, x)
    ensures queue != [] && queue[0] == row[i]
    ensures QueueOf(n1, n2, row, k, i + 1, queue[1..] + Offspring(n1, n2, queue[0]), t)
  {
    PendingNext(n1, n2, row, i);
    BelowOne(n1, n2, row, i);
    TagsStep(tags, t, |row| - i, |Below(n1, n2, row[..i])|, |Offspring(n1, n2, row[i])|, k, x);
  }

  lemma {:induction false} QueueOfTurn(n1: Nodes, n2: Nodes, row: seq<Entry>, k: nat, queue: seq<Entry>, tags: seq<nat>)
    requires QueueOf(n1, n2, row, k, |row|, queue, tags)
    ensures QueueOf(n1, n2, Below(n1, n2, row), k + 1, 0, queue, tags)
  {
    PendingRow(n1, n2, row);
    assert row[..|row|] == row;
    assert Below(n1, n2, row)[..0] == [];
  }

  lemma {:induction false} QueueHead(n1: Nodes, n2: Nodes, e0: Entry, k: nat, i: nat, queue: seq<Entry>, tags: seq<nat>)
    requires QueueAt(n1, n2, e0, k, i, queue, tags) && queue != []
    ensures var row := PairsAt(n1, n2, e0, k);
            i < |row| && queue[0] == row[i] && |tags| > 0 && tags[0] == k
  {
  }

  lemma {:induction false} QueueAtOn(n1: Nodes, n2: Nodes, e0: Entry, k: nat, i: nat, queue: seq<Entry>, tags: seq<nat>,
                                     row: seq<Entry>)
    requires row == PairsAt(n1, n2, e0, k) && i <= |row| && (i == |row| ==> row == [])
    requires QueueOf(n1, n2, row, k, i, queue, tags) && Inhabited(n1, n2, e0, k)
    ensures QueueAt(n1, n2, e0, k, i, queue, tags)
  {
  }

  lemma {:induction false} QueueAtTurn(n1: Nodes, n2: Nodes, e0: Entry, k: nat, queue: seq<Entry>, tags: seq<nat>,
                                       row: seq<Entry>)
    requires row == PairsAt(n1, n2, e0, k) && row != []
    requires QueueOf(n1, n2, row, k, |row|, queue, tags) && Inhabited(n1, n2, e0, k)
    ensures QueueAt(n1, n2, e0, k + 1, 0, queue, tags)
  {
    QueueOfTurn(n1, n2, row, k, queue, tags);
    assert PairsAt(n1, n2, e0, k + 1) == Below(n1, n2, row);
    InhabitedOn(n1, n2, e0, k);
    QueueAtOn(n1, n2, e0, k + 1, 0, queue, tags, Below(n1, n2, row));
  }

  lemma {:induction false} QueueStep(n1: Nodes, n2: Nodes, e0: Entry, k: nat, i: nat, queue: seq<Entry>, tags: seq<nat>,
                                     level: nat, t: seq<nat>, q: seq<Entry>)
    requires QueueAt(n1, n2, e0, k, i, queue, tags) && queue != [] && |tags| > 0 && level == k
    requires q == queue[1..] + Offspring(n1, n2, queue[0])
    requires TagsAdded(tags[1..], t, |Offspring(n1, n2, queue[0])|, level + 1)
    ensures i + 1 < |PairsAt(n1, n2, e0, k)| ==> QueueAt(n1, n2, e0, k, i + 1, q, t)
    ensures i + 1 >= |PairsAt(n1, n2, e0, k)| ==> QueueAt(n1, n2, e0, k + 1, 0, q, t)
  {
    var row := PairsAt(n1, n2, e0, k);
    QueueHead(n1, n2, e0, k, i, queue, tags);
    QueueOfStep(n1, n2, row, k, i, queue, tags, t, level + 1);
    if i + 1 < |row| {
      QueueAtOn(n1, n2, e0, k, i + 1, q, t, row);
    } else {
      QueueAtTurn(n1, n2, e0, k, q, t, row);
    }
  }

  /** Levels 0 to k - 1 are written out. */
  ghost predicate FullLevels(n1: Nodes, n2: Nodes, e0: Entry, k: nat, levels: seq<seq<DiffCell>>,
                             out: seq<string>, names: seq<string>, namesMap: map<nat, nat>)
    requires NamesOk(names, namesMap)
  {
    k <= |levels| && forall m :: 0 <= m < k ==> ShowsAll(levels[m], PairsAt(n1, n2, e0, m), out, names, namesMap)
  }

  /** The levels written when entry i of level k is next. */
  ghost predicate LevelsAt(n1: Nodes, n2: Nodes, e0: Entry, k: nat, i: nat, levels: seq<seq<DiffCell>>,
                           out: seq<string>, names: seq<string>, namesMap: map<nat, nat>)
    requires NamesOk(names, namesMap)
  {
    var row := PairsAt(n1, n2, e0, k);
    && i <= |row| && |levels| == (if i == 0 then k else k + 1)
    && FullLevels(n1, n2, e0, k, levels, out, names, namesMap)
    && (i > 0 ==> ShowsAll(levels[k], row[..i], out, names, namesMap))
  }

  lemma {:induction false} ShowsMore(cells: seq<DiffCell>, es: seq<Entry>, out: seq<string>, out': seq<string>,
                  names: seq<string>, namesMap: map<nat, nat>)
    requires NamesOk(names, namesMap) && ShowsAll(cells, es, out, names, namesMap) && out <= out'
    ensures ShowsAll(cells, es, out', names, namesMap)
  {
    forall j | 0 <= j < |es| ensures Shows(cells[j], es[j], out', names, namesMap) {
      assert Shows(cells[j], es[j], out, names, namesMap);
    }
  }

  function Write(levels: seq<seq<DiffCell>>, k: nat, cell: DiffCell): seq<seq<DiffCell>> {
    if k < |levels| then levels[k := levels[k] + [cell]] else levels + [[cell]]
  }

  lemma {:induction false} LevelsStep(n1: Nodes, n2: Nodes, e0: Entry, k: nat, i: nat, levels: seq<seq<DiffCell>>,
                   out: seq<string>, out': seq<string>, cell: DiffCell, names: seq<string>, namesMap: map<nat, nat>)
    requires NamesOk(names, namesMap) && LevelsAt(n1, n2, e0, k, i, levels, out, names, namesMap) && out <= out'
    requires i < |PairsAt(n1, n2, e0, k)|
    requires Shows(cell, PairsAt(n1, n2, e0, k)[i], out', names, namesMap)
    ensures var row := PairsAt(n1, n2, e0, k);
            LevelsAt(n1, n2, e0, if i + 1 < |row| then k else k + 1, if i + 1 < |row| then i + 1 else 0,
                     Write(levels, k, cell), out', names, namesMap)
  {
    var row := PairsAt(n1, n2, e0, k);
    var w := Write(levels, k, cell);
    FullLevelsStay(n1, n2, e0, k, levels, w, out, out', names, namesMap);
    RowShown(if i == 0 then [] else levels[k], row, i, cell, out, out', names, namesMap);
    assert w[k] == (if i == 0 then [] else levels[k]) + [cell];
    if i + 1 == |row| {
      assert row[..i + 1] == row;
    }
  }

  lemma {:induction false} FullLevelsStay(n1: Nodes, n2: Nodes, e0: Entry, k: nat, levels: seq<seq<DiffCell>>,
                                          w: seq<seq<DiffCell>>, out: seq<string>, out': seq<string>,
                                          names: seq<string>, namesMap: map<nat, nat>)
    requires NamesOk(names, namesMap) && FullLevels(n1, n2, e0, k, levels, out, names, namesMap) && out <= out'
    requires k <= |w| && forall m :: 0 <= m < k ==> w[m] == levels[m]
    ensures FullLevels(n1, n2, e0, k, w, out', names, namesMap)
  {
    forall m | 0 <= m < k ensures ShowsAll(w[m], PairsAt(n1, n2, e0, m), out', names, namesMap) {
      ShowsMore(levels[m], PairsAt(n1, n2, e0, m), out, out', names, namesMap);
    }
  }

  /** One more cell on a level. */
  lemma {:induction false} RowShown(cells: seq<DiffCell>, row: seq<Entry>, i: nat, cell: DiffCell, out: seq<string>,
                                    out': seq<string>, names: seq<string>, namesMap: map<nat, nat>)
    requires NamesOk(names, namesMap) && i < |row| && out <= out' && Shows(cell, row[i], out', names, namesMap)
    requires if i == 0 then cells == [] else ShowsAll(cells, row[..i], out, names, namesMap)
    ensures ShowsAll(cells + [cell], row[..i + 1], out', names, namesMap)
  {
    assert row[..i + 1] == row[..i] + [row[i]];
    if i > 0 {
      ShowsMore(cells, row[..i], out, out', names, namesMap);
    }
  }

  /** All levels of the walk, offsets still absolute. */
  ghost predicate Walked(n1: Nodes, n2: Nodes, levels: seq<seq<DiffCell>>, out: seq<string>,
                         names: seq<string>, namesMap: map<nat, nat>)
    requires NamesOk(names, namesMap)
  {
    var e0 := RootEntry(n1, n2);
    && PairsAt(n1, n2, e0, |levels|) == []
    && forall k :: 0 <= k < |levels| ==>
         PairsAt(n1, n2, e0, k) != [] && ShowsAll(levels[k], PairsAt(n1, n2, e0, k), out, names, namesMap)
  }

  /** The working state of the walk. */
  datatype Walk = Walk(queue: seq<Entry>, tags: seq<nat>, levels: seq<seq<DiffCell>>,
                       out: seq<string>, cache: map<string, nat>)

  ghost predicate WalkAt(n1: Nodes, n2: Nodes, e0: Entry, k: nat, i: nat, w: Walk, names: seq<string>, namesMap: map<nat, nat>)
    requires NamesOk(names, namesMap)
  {
    && QueueAt(n1, n2, e0, k, i, w.queue, w.tags)
    && LevelsAt(n1, n2, e0, k, i, w.levels, w.out, names, namesMap)
    && Cached(w.out, w.cache)
  }

  /** One pass of the loop: the first entry becomes a cell and its children join the queue. */
  method Visit(n1: Nodes, n2: Nodes, names: seq<string>, namesMap: map<nat, nat>, w: Walk,
               ghost e0: Entry, ghost k: nat, ghost i: nat)
    returns (next: Walk, ghost k': nat, ghost i': nat)
    requires NamesOk(names, namesMap)
    requires WalkAt(n1, n2, e0, k, i, w, names, namesMap) && w.queue != []
    ensures WalkAt(n1, n2, e0, k', i', next, names, namesMap)
    ensures next.queue == w.queue[1..] + Offspring(n1, n2, w.queue[0])
  {
    QueueHead(n1, n2, e0, k, i, w.queue, w.tags);
    ghost var row := PairsAt(n1, n2, e0, k);
    k', i' := if i + 1 < |row| then k else k + 1, if i + 1 < |row| then i + 1 else 0;
    var e, level := w.queue[0], w.tags[0];
    var idx, out, cache := InternName(NameOf(names, namesMap, e.left), w.out, w.cache);
    var cell := CellOf(e, idx);
    LevelsStep(n1, n2, e0, k, i, w.levels, w.out, out, cell, names, namesMap);
    var queue, tags := PushChildren(n1, n2, e, level, w.queue[1..], w.tags[1..]);
    QueueStep(n1, n2, e0, k, i, w.queue, w.tags, level, tags, queue);
    next := Walk(queue, tags, Write(w.levels, level, cell), out, cache);
  }

  lemma {:induction false} WalkStart(n1: Nodes, n2: Nodes, names: seq<string>, namesMap: map<nat, nat>)
    requires NamesOk(names, namesMap)
    ensures WalkAt(n1, n2, RootEntry(n1, n2), 0, 0, Walk([RootEntry(n1, n2)], [0], [], [], map[]), names, namesMap)
  {
    var e0 := RootEntry(n1, n2);
    assert Pending(n1, n2, [e0], 0) == [e0];
    assert [e0][..0] == [];
  }

  lemma {:induction false} WalkEnd(n1: Nodes, n2: Nodes, k: nat, i: nat, w: Walk, names: seq<string>, namesMap: map<nat, nat>)
    requires NamesOk(names, namesMap) && WalkAt(n1, n2, RootEntry(n1, n2), k, i, w, names, namesMap) && w.queue == []
    ensures Walked(n1, n2, w.levels, w.out, names, namesMap)
  {
    var row := PairsAt(n1, n2, RootEntry(n1, n2), k);
    assert |row[i..]| == 0;
  }

  /** The walk over both trees, where it ends. */
  method WalkTrees(n1: Nodes, n2: Nodes, names: seq<string>, namesMap: map<nat, nat>)
    returns (levels: seq<seq<DiffCell>>, out: seq<string>)
    requires WalkEnds(n1, n2) && NamesOk(names, namesMap)
    ensures Walked(n1, n2, levels, out, names, namesMap)
  {
    var w := Walk([RootEntry(n1, n2)], [0], [], [], map[]);
    WalkStart(n1, n2, names, namesMap);
    ghost var k, i, turns := 0, 0, 0;
    ghost var last: nat :| QueueAfter(n1, n2, last) == [];
    while w.queue != []
      invariant WalkAt(n1, n2, RootEntry(n1, n2), k, i, w, names, namesMap)
      invariant TurnsLeft(n1, n2, w.queue, turns, last)
      decreases last - turns
    {
      NextTurn(n1, n2, w.queue, turns, last);
      w, k, i := Visit(n1, n2, names, namesMap, w, RootEntry(n1, n2), k, i);
      turns := turns + 1;
    }
    WalkEnd(n1, n2, k, i, w, names, namesMap);
    levels, out := w.levels, w.out;
  }

  // ----- offsets stored as distances

  /** One side of a level in the format of FlameLayout. */
  function LeftCell(x: DiffCell): Cell {
    Cell(x.xLeft, x.leftTotal, x.leftSelf, x.name)
  }

  function RightCell(x: DiffCell): Cell {
    Cell(x.xRight, x.rightTotal, x.rightSelf, x.name)
  }

  function LeftSide(cells: seq<DiffCell>): (r: seq<Cell>)
    ensures |r| == |cells| && forall i :: 0 <= i < |cells| ==> r[i] == LeftCell(cells[i])
  {
    seq(|cells|, i requires 0 <= i < |cells| => LeftCell(cells[i]))
  }

  function RightSide(cells: seq<DiffCell>): (r: seq<Cell>)
    ensures |r| == |cells| && forall i :: 0 <= i < |cells| ==> r[i] == RightCell(cells[i])
  {
    seq(|cells|, i requires 0 <= i < |cells| => RightCell(cells[i]))
  }

  lemma {:induction false} SidesAppend(cells: seq<DiffCell>, x: DiffCell)
    ensures LeftSide(cells + [x]) == LeftSide(cells) + [LeftCell(x)]
    ensures RightSide(cells + [x]) == RightSide(cells) + [RightCell(x)]
  {
  }

  /** Storing the distance from the end of the cells before is what Decode undoes. */
  lemma {:induction false} DistanceStored(stored: seq<Cell>, c: Cell)
    ensures var x := c.(offset := c.offset - End(stored));
            Decode(stored + [x]) == Decode(stored) + [c] && End(stored + [x]) == c.offset + c.total
  {
    DecodeAppend(stored, c.(offset := c.offset - End(stored)));
  }

  ghost predicate Stored(r: seq<DiffCell>, cells: seq<DiffCell>) {
    Decode(LeftSide(r)) == LeftSide(cells) && Decode(RightSide(r)) == RightSide(cells)
  }

  lemma {:induction false} StoreStep(r: seq<DiffCell>, cells: seq<DiffCell>, c: DiffCell)
    requires Stored(r, cells)
    ensures var x := c.(xLeft := c.xLeft - End(LeftSide(r)), xRight := c.xRight - End(RightSide(r)));
            && Stored(r + [x], cells + [c])
            && End(LeftSide(r + [x])) == c.xLeft + c.leftTotal
            && End(RightSide(r + [x])) == c.xRight + c.rightTotal
  {
    var x := c.(xLeft := c.xLeft - End(LeftSide(r)), xRight := c.xRight - End(RightSide(r)));
    SidesAppend(r, x);
    SidesAppend(cells, c);
    DistanceStored(LeftSide(r), LeftCell(c));
    DistanceStored(RightSide(r), RightCell(c));
  }

  /** The final pass over one level: every offset minus the end of the bar before it. */
  method StoreDistances(cells: seq<DiffCell>) returns (r: seq<DiffCell>)
    ensures Stored(r, cells)
  {
    r := [];
    var prev0, prev3 := 0, 0;
    for j := 0 to |cells|
      invariant Stored(r, cells[..j])
      invariant prev0 == End(LeftSide(r)) && prev3 == End(RightSide(r))
    {
      StoreStep(r, cells[..j], cells[j]);
      assert cells[..j + 1] == cells[..j] + [cells[j]];
      var x := cells[j].(xLeft := cells[j].xLeft - prev0, xRight := cells[j].xRight - prev3);
      prev0 := prev0 + x.xLeft + x.leftTotal;
      prev3 := prev3 + x.xRight + x.rightTotal;
      r := r + [x];
    }
    assert cells[..|cells|] == cells;
  }

  // ----- the result

  /** The entries that a stored level decodes to. */
  ghost predicate LevelShows(cells: seq<DiffCell>, es: seq<Entry>, out: seq<string>,
                             names: seq<string>, namesMap: map<nat, nat>)
    requires NamesOk(names, namesMap)
  {
    exists plain :: Stored(cells, plain) && ShowsAll(plain, es, out, names, namesMap)
  }

  /** The levels decode to the walk, all of it. */
  ghost predicate DiffShows(n1: Nodes, n2: Nodes, levels: seq<seq<DiffCell>>, out: seq<string>,
                            names: seq<string>, namesMap: map<nat, nat>)
    requires NamesOk(names, namesMap)
  {
    && PairsAt(n1, n2, RootEntry(n1, n2), |levels|) == []
    && forall k :: 0 <= k < |levels| ==>
         && PairsAt(n1, n2, RootEntry(n1, n2), k) != []
         && LevelShows(levels[k], PairsAt(n1, n2, RootEntry(n1, n2), k), out, names, namesMap)
  }

  method StoreLevels(plain: seq<seq<DiffCell>>) returns (levels: seq<seq<DiffCell>>)
    ensures |levels| == |plain| && forall k :: 0 <= k < |plain| ==> Stored(levels[k], plain[k])
  {
    levels := [];
    for k := 0 to |plain|
      invariant |levels| == k && forall m :: 0 <= m < k ==> Stored(levels[m], plain[m])
    {
      var level := StoreDistances(plain[k]);
      levels := levels + [level];
    }
  }

  method ComputeFlameGraphDiff(n1: Nodes, n2: Nodes, names: seq<string>, namesMap: map<nat, nat>)
    returns (levels: seq<seq<DiffCell>>, out: seq<string>, leftTicks: int, rightTicks: int)
    requires WalkEnds(n1, n2) && NamesOk(names, namesMap)
    ensures DiffShows(n1, n2, levels, out, names, namesMap)
    ensures leftTicks == SumTotals(ChildrenOf(n1, 0), 0) && rightTicks == SumTotals(ChildrenOf(n2, 0), 0)
  {
    leftTicks, rightTicks := SumTotals(ChildrenOf(n1, 0), 0), SumTotals(ChildrenOf(n2, 0), 0);
    var plain;
    plain, out := WalkTrees(n1, n2, names, namesMap);
    levels := StoreLevels(plain);
    forall k | 0 <= k < |levels|
      ensures LevelShows(levels[k], PairsAt(n1, n2, RootEntry(n1, n2), k), out, names, namesMap)
    {
      assert Stored(levels[k], plain[k]);
    }
  }

  // ----- the picture it shows

  function RevKids(nodes: Nodes): nat -> seq<Node> {
    (id: nat) => Rev(ChildrenOf(nodes, id))
  }

  function LeftBars(es: seq<Entry>): (r: seq<Bar>)
    ensures |r| == |es| && forall i :: 0 <= i < |es| ==> r[i] == Bar(es[i].xLeft, es[i].left)
  {
    seq(|es|, i requires 0 <= i < |es| => Bar(es[i].xLeft, es[i].left))
  }

  function RightBars(es: seq<Entry>): (r: seq<Bar>)
    ensures |r| == |es| && forall i :: 0 <= i < |es| ==> r[i] == Bar(es[i].xRight, es[i].right)
  {
    seq(|es|, i requires 0 <= i < |es| => Bar(es[i].xRight, es[i].right))
  }

  ghost predicate SameIds(es: seq<Entry>) {
    forall i :: 0 <= i < |es| ==> es[i].left.nodeId == es[i].right.nodeId
  }

  /** Two trees with the same ids in the same places. */
  ghost predicate SameShape(m1: Nodes, m2: Nodes) {
    forall p :: Ids(ChildrenOf(m1, p)) == Ids(ChildrenOf(m2, p))
  }

  lemma {:induction false} MergedShape(n1: Nodes, n2: Nodes, m1: Nodes, m2: Nodes)
    requires MergedTrees(n1, n2, m1, m2)
    ensures SameShape(m1, m2)
  {
    forall p ensures Ids(ChildrenOf(m1, p)) == Ids(ChildrenOf(m2, p)) {
      if p in m1 {
        assert AlignedLists(ChildrenOf(n1, p), ChildrenOf(n2, p), m1[p], m2[p]);
      }
    }
  }

  /** On trees of the same shape the right child is never missing. */
  lemma {:induction false} NoMissingPartner(m1: Nodes, m2: Nodes, e: Entry)
    requires SameShape(m1, m2) && e.left.nodeId == e.right.nodeId
    ensures var off := Offspring(m1, m2, e);
            && LeftBars(off) == Tile(e.xLeft, RevKids(m1)(e.left.nodeId), 0)
            && RightBars(off) == Tile(e.xRight, RevKids(m2)(e.right.nodeId), 0)
            && SameIds(off)
  {
    var ls, rs := ChildrenOf(m1, e.left.nodeId), ChildrenOf(m2, e.right.nodeId);
    assert Ids(ls) == Ids(rs);
    assert |ls| == |Ids(ls)| == |rs|;
    assert Partners(ls, rs) == Rev(rs);
    PairTiles(e, Rev(ls), Rev(rs));
    assert RevKids(m1)(e.left.nodeId) == Rev(ls) && RevKids(m2)(e.right.nodeId) == Rev(rs);
    PairedIds(e, ls, rs);
  }

  lemma {:induction false} PairedIds(e: Entry, ls: seq<Node>, rs: seq<Node>)
    requires |ls| == |rs| && Ids(ls) == Ids(rs)
    ensures SameIds(Pair(e, Rev(ls), Rev(rs)))
  {
    var off := Pair(e, Rev(ls), Rev(rs));
    forall i | 0 <= i < |off| ensures off[i].left.nodeId == off[i].right.nodeId {
      assert off[i].left == ls[|ls| - 1 - i] && off[i].right == rs[|ls| - 1 - i];
      assert Ids(ls)[|ls| - 1 - i] == Ids(rs)[|ls| - 1 - i];
    }
  }

  lemma {:induction false} BarsConcat(a: seq<Entry>, b: seq<Entry>)
    ensures LeftBars(a + b) == LeftBars(a) + LeftBars(b) && RightBars(a + b) == RightBars(a) + RightBars(b)
    ensures SameIds(a) && SameIds(b) ==> SameIds(a + b)
  {
  }

  lemma {:induction false} BelowIsExpand(m1: Nodes, m2: Nodes, es: seq<Entry>)
    requires SameShape(m1, m2) && SameIds(es)
    ensures LeftBars(Below(m1, m2, es)) == Expand(RevKids(m1), LeftBars(es), 0)
    ensures RightBars(Below(m1, m2, es)) == Expand(RevKids(m2), RightBars(es), 0)
    ensures SameIds(Below(m1, m2, es))
  {
    if es != [] {
      var n := |es| - 1;
      BelowIsExpand(m1, m2, es[..n]);
      NoMissingPartner(m1, m2, es[n]);
      assert LeftBars(es)[..n] == LeftBars(es[..n]) && RightBars(es)[..n] == RightBars(es[..n]);
      BarsConcat(Below(m1, m2, es[..n]), Offspring(m1, m2, es[n]));
    }
  }

  /** Lockstep: on every level both trees show the same ids, and each side shows exactly the
      picture of its own tree. */
  lemma {:induction false} WalkShowsBothTrees(m1: Nodes, m2: Nodes, k: nat)
    requires SameShape(m1, m2)
    ensures var es := PairsAt(m1, m2, RootEntry(m1, m2), k);
            && LeftBars(es) == BarsAt(RevKids(m1), Root(m1), k, 0)
            && RightBars(es) == BarsAt(RevKids(m2), Root(m2), k, 0)
            && SameIds(es)
  {
    if k == 0 {
      assert LeftBars([RootEntry(m1, m2)]) == [Bar(0, Root(m1))];
      assert RightBars([RootEntry(m1, m2)]) == [Bar(0, Root(m2))];
    } else {
      WalkShowsBothTrees(m1, m2, k - 1);
      BelowIsExpand(m1, m2, PairsAt(m1, m2, RootEntry(m1, m2), k - 1));
    }
  }

  // ----- bars that nest and do not overlap

  lemma {:induction false} MergedPositive(n1: Nodes, n2: Nodes, m1: Nodes, m2: Nodes)
    requires MergedTrees(n1, n2, m1, m2) && PositiveSelf(n1, 0)
    ensures PositiveSelf(m1, 0)
  {
    forall p, k | p in m1 && 0 <= k < |m1[p]| ensures Self(m1[p][k], 0) >= 0 {
      assert AlignedLists(ChildrenOf(n1, p), ChildrenOf(n2, p), m1[p], m2[p]);
      if m1[p][k] !in ChildrenOf(n1, p) {
        EmptyWeighsNothing(m2[p][k], 0);
      }
    }
  }

  lemma {:induction false} ShapeAcyclic(m1: Nodes, m2: Nodes)
    requires SameShape(m1, m2) && Acyclic(m1)
    ensures Acyclic(m2)
  {
    forall ids | Descent(m2, ids) ensures Descent(m1, ids) {
      forall k | 0 <= k < |ids| ensures Link(m1, ids, k) {
        assert Link(m2, ids, k);
        if k > 0 {
          assert Ids(ChildrenOf(m1, ids[k - 1])) == Ids(ChildrenOf(m2, ids[k - 1]));
        }
      }
    }
  }

  /** What one side of a stored level shows. */
  ghost predicate SideShows(cells: seq<Cell>, bars: seq<Bar>) {
    && |cells| == |bars| && Ordered(bars, 0)
    && forall j :: 0 <= j < |bars| ==>
         && cells[j].offset >= 0
         && Decode(cells)[j].offset == bars[j].left
         && cells[j].total == Total(bars[j].node, 0) && cells[j].self == Self(bars[j].node, 0)
  }

  /** The levels of the tree that one side draws. */
  function SideBars(nodes: Nodes, k: nat): seq<Bar> {
    BarsAt(RevKids(nodes), Root(nodes), k, 0)
  }

  lemma {:induction false} SidePicture(nodes: Nodes, k: nat)
    requires Acyclic(nodes) && AdditiveTree(nodes, 0) && PositiveSelf(nodes, 0)
    ensures LevelOk(RevKids(nodes), Root(nodes), k, 0)
  {
    RevKidsOf(nodes);
    assert Kids(nodes)(0) == ChildrenOf(nodes, 0);
    TreeSound(nodes, RevKids(nodes), Root(nodes), 0);
    PictureLevel(RevKids(nodes), Root(nodes), k, 0);
  }

  lemma {:induction false} SideIsPicture(nodes: Nodes, k: nat, cells: seq<Cell>)
    requires LevelOk(RevKids(nodes), Root(nodes), k, 0)
    requires var bars := SideBars(nodes, k);
             |cells| == |bars| && forall j :: 0 <= j < |bars| ==>
               Decode(cells)[j].offset == bars[j].left &&
               cells[j].total == Total(bars[j].node, 0) && cells[j].self == Self(bars[j].node, 0)
    ensures SideShows(cells, SideBars(nodes, k))
  {
    OrderedDistances(cells, SideBars(nodes, k), 0);
  }

  lemma {:induction false} SidesDecoded(cells: seq<DiffCell>, plain: seq<DiffCell>, es: seq<Entry>, out: seq<string>,
                     names: seq<string>, namesMap: map<nat, nat>)
    requires NamesOk(names, namesMap) && Stored(cells, plain) && ShowsAll(plain, es, out, names, namesMap)
    ensures |cells| == |es|
    ensures forall j :: 0 <= j < |es| ==>
      && Decode(LeftSide(cells))[j].offset == LeftBars(es)[j].left
      && LeftSide(cells)[j].total == Total(LeftBars(es)[j].node, 0)
      && LeftSide(cells)[j].self == Self(LeftBars(es)[j].node, 0)
    ensures forall j :: 0 <= j < |es| ==>
      && Decode(RightSide(cells))[j].offset == RightBars(es)[j].left
      && RightSide(cells)[j].total == Total(RightBars(es)[j].node, 0)
      && RightSide(cells)[j].self == Self(RightBars(es)[j].node, 0)
  {
    assert |Decode(LeftSide(cells))| == |cells|;
    forall j | 0 <= j < |es|
      ensures Decode(LeftSide(cells))[j] == LeftCell(plain[j]) && Decode(RightSide(cells))[j] == RightCell(plain[j])
      ensures Shows(plain[j], es[j], out, names, namesMap)
    {
      DecodeKeepsTotals(LeftSide(cells), j);
      DecodeKeepsTotals(RightSide(cells), j);
    }
    forall j | 0 <= j < |es|
      ensures LeftSide(cells)[j].total == plain[j].leftTotal && LeftSide(cells)[j].self == plain[j].leftSelf
      ensures RightSide(cells)[j].total == plain[j].rightTotal && RightSide(cells)[j].self == plain[j].rightSelf
    {
      DecodeKeepsTotals(LeftSide(cells), j);
      DecodeKeepsTotals(RightSide(cells), j);
    }
  }

  lemma {:induction false} BothSides(m1: Nodes, m2: Nodes, cells: seq<DiffCell>, plain: seq<DiffCell>,
                    out: seq<string>, names: seq<string>, namesMap: map<nat, nat>, k: nat)
    requires SameShape(m1, m2) && NamesOk(names, namesMap)
    requires LevelOk(RevKids(m1), Root(m1), k, 0) && LevelOk(RevKids(m2), Root(m2), k, 0)
    requires Stored(cells, plain)
    requires ShowsAll(plain, PairsAt(m1, m2, RootEntry(m1, m2), k), out, names, namesMap)
    ensures SideShows(LeftSide(cells), SideBars(m1, k)) && SideShows(RightSide(cells), SideBars(m2, k))
  {
    var es := PairsAt(m1, m2, RootEntry(m1, m2), k);
    WalkShowsBothTrees(m1, m2, k);
    SidesDecoded(cells, plain, es, out, names, namesMap);
    SideIsPicture(m1, k, LeftSide(cells));
    SideIsPicture(m2, k, RightSide(cells));
  }

  lemma {:induction false} LockstepIds(m1: Nodes, m2: Nodes, k: nat)
    requires SameShape(m1, m2)
    ensures Ids(NodesOf(SideBars(m1, k))) == Ids(NodesOf(SideBars(m2, k)))
  {
    WalkShowsBothTrees(m1, m2, k);
    var es := PairsAt(m1, m2, RootEntry(m1, m2), k);
    assert Ids(NodesOf(LeftBars(es))) == Ids(NodesOf(RightBars(es)));
  }

  /** What level k of a diff shows: on both sides the bars of the own tree, in order, without
      overlap, each inside a bar of the level above, at non-negative distances; and on both sides
      the same node ids. */
  ghost predicate DiffLevelOk(m1: Nodes, m2: Nodes, cells: seq<DiffCell>, k: nat) {
    && LevelOk(RevKids(m1), Root(m1), k, 0) && LevelOk(RevKids(m2), Root(m2), k, 0)
    && SideShows(LeftSide(cells), SideBars(m1, k)) && SideShows(RightSide(cells), SideBars(m2, k))
    && Ids(NodesOf(SideBars(m1, k))) == Ids(NodesOf(SideBars(m2, k)))
  }

  /** The diff pipeline: mergeNodes and then computeFlameGraphDiff. */
  lemma {:induction false} DiffPipeline(n1: Nodes, n2: Nodes, m1: Nodes, m2: Nodes,
                                        levels: seq<seq<DiffCell>>, out: seq<string>, names: seq<string>,
                                        namesMap: map<nat, nat>, k: nat)
    requires MergedTrees(n1, n2, m1, m2) && NamesOk(names, namesMap)
    requires AdditiveTree(n1, 0) && PositiveSelf(n1, 0) && NoOrphans(n1, n2, 0)
    requires AdditiveTree(n2, 0) && PositiveSelf(n2, 0) && NoOrphans(n2, n1, 0)
    requires DiffShows(m1, m2, levels, out, names, namesMap) && k < |levels|
    ensures DiffLevelOk(m1, m2, levels[k], k)
  {
    MergedMirror(n1, n2, m1, m2);
    MergedShape(n1, n2, m1, m2);
    EndedIsAcyclic(m1, m2, |levels|);
    ShapeAcyclic(m1, m2);
    assert LevelOk(RevKids(m1), Root(m1), k, 0) by {
      MergeKeepsAdditive(n1, n2, m1, m2, 0);
      MergedPositive(n1, n2, m1, m2);
      SidePicture(m1, k);
    }
    assert LevelOk(RevKids(m2), Root(m2), k, 0) by {
      MergeKeepsAdditive(n2, n1, m2, m1, 0);
      MergedPositive(n2, n1, m2, m1);
      SidePicture(m2, k);
    }
    var es := PairsAt(m1, m2, RootEntry(m1, m2), k);
    assert LevelShows(levels[k], es, out, names, namesMap);
    var plain :| Stored(levels[k], plain) && ShowsAll(plain, es, out, names, namesMap);
    BothSides(m1, m2, levels[k], plain, out, names, namesMap, k);
    LockstepIds(m1, m2, k);
  }

  // ----- the names shown

  /** Every cell names the function of its left node: "total" for function 0, otherwise what the
      left tree's table says, and its first name for a function that is not in the table. */
  lemma {:induction false} DiffNames(n1: Nodes, n2: Nodes, levels: seq<seq<DiffCell>>, out: seq<string>,
                                     names: seq<string>, namesMap: map<nat, nat>, k: nat, j: nat)
    requires NamesOk(names, namesMap) && DiffShows(n1, n2, levels, out, names, namesMap)
    requires k < |levels| && j < |levels[k]|
    ensures var cell, es := levels[k][j], PairsAt(n1, n2, RootEntry(n1, n2), k);
            && j < |es| && cell.name < |out|
            && var f := es[j].left.fnId;
               out[cell.name] == if f == 0 then "total" else if f in namesMap then names[namesMap[f]] else names[0]
  {
    var es := PairsAt(n1, n2, RootEntry(n1, n2), k);
    assert LevelShows(levels[k], es, out, names, namesMap);
    var plain :| Stored(levels[k], plain) && ShowsAll(plain, es, out, names, namesMap);
    assert |levels[k]| == |plain| by {
      assert |LeftSide(levels[k])| == |LeftSide(plain)|;
    }
    assert Shows(plain[j], es[j], out, names, namesMap);
    DecodeKeepsNames(LeftSide(levels[k]), j);
  }

  lemma {:induction false} DecodeKeepsNames(cells: seq<Cell>, j: nat)
    requires j < |cells|
    ensures Decode(cells)[j].name == cells[j].name
  {
    if j < |cells| - 1 {
      DecodeKeepsNames(cells[..|cells| - 1], j);
    }
  }
}
