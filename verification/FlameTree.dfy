/** The profile tree object, and MergeTrie: rows of a stored trie are added to it. */
module FlameTree {
  import opened Sequences
  import opened FlameBars
  import opened FlameLayout

  /** A row of the stored trie: self and total of node id under parent, for one sample type. */
  datatype Row = Row(parent: nat, fn: nat, id: nat, self: int, total: int)

  /** Both caps of MergeTrie: nodes of the tree, and names. */
  const Cap: nat := 2000000

  predicate WideNode(n: Node, columns: nat) {
    |n.self| == columns == |n.total|
  }

  predicate WideList(ns: seq<Node>, columns: nat) {
    forall i :: 0 <= i < |ns| ==> WideNode(ns[i], columns)
  }

  /** Every node has a self and a total for each sample type. */
  ghost predicate Wide(nodes: Nodes, columns: nat) {
    forall p :: p in nodes ==> WideList(nodes[p], columns)
  }

  /** findNode: the first child with that id, |ns| when there is none. */
  function PosOf(ns: seq<Node>, id: nat): (r: nat)
    ensures r <= |ns| && (r < |ns| ==> ns[r].nodeId == id)
    ensures forall k :: 0 <= k < r ==> ns[k].nodeId != id
  {
    if ns == [] then 0
    else
      var n := |ns| - 1;
      var r := PosOf(ns[..n], id);
      if r < n || ns[n].nodeId == id then r else |ns|
  }

  method FindNode(id: nat, ns: seq<Node>) returns (r: int)
    ensures r == if PosOf(ns, id) < |ns| then PosOf(ns, id) else -1
  {
    for i := 0 to |ns|
      invariant forall k :: 0 <= k < i ==> ns[k].nodeId != id
    {
      if ns[i].nodeId == id {
        return i;
      }
    }
    return -1;
  }

  /** A row of zeros but for x in column c. */
  function OneHot(columns: nat, c: nat, x: int): (r: seq<int>)
    ensures |r| == columns && forall k :: 0 <= k < columns ==> r[k] == if k == c then x else 0
  {
    seq(columns, k => if k == c then x else 0)
  }

  function NewNode(columns: nat, c: nat, row: Row): Node {
    Node(row.fn, row.id, OneHot(columns, c, row.self), OneHot(columns, c, row.total))
  }

  function Bumped(n: Node, c: nat, row: Row): Node
    requires c < |n.self| && c < |n.total|
  {
    n.(self := n.self[c := n.self[c] + row.self], total := n.total[c := n.total[c] + row.total])
  }

  predicate HasNode(nodes: Nodes, row: Row) {
    PosOf(ChildrenOf(nodes, row.parent), row.id) < |ChildrenOf(nodes, row.parent)|
  }

  /** The children of the row's parent after the row. */
  function RowOn(ns: seq<Node>, columns: nat, c: nat, row: Row): (r: seq<Node>)
    requires WideList(ns, columns) && c < columns
    ensures WideList(r, columns)
  {
    var pos := PosOf(ns, row.id);
    if pos < |ns| then
      assert WideNode(ns[pos], columns);
      ns[pos := Bumped(ns[pos], c, row)]
    else ns + [NewNode(columns, c, row)]
  }

  function AddRow(nodes: Nodes, columns: nat, c: nat, row: Row): Nodes
    requires Wide(nodes, columns) && c < columns
  {
    nodes[row.parent := RowOn(ChildrenOf(nodes, row.parent), columns, c, row)]
  }

  lemma {:induction false} AddRowWide(nodes: Nodes, columns: nat, c: nat, row: Row)
    requires Wide(nodes, columns) && c < columns
    ensures Wide(AddRow(nodes, columns, c, row), columns)
  {
  }

  /** All rows added, without a cap. */
  function AddRows(nodes: Nodes, columns: nat, c: nat, rows: seq<Row>): (r: Nodes)
    requires Wide(nodes, columns) && c < columns
    ensures Wide(r, columns)
  {
    if rows == [] then nodes
    else
      var before := AddRows(nodes, columns, c, rows[..|rows| - 1]);
      AddRowWide(before, columns, c, rows[|rows| - 1]);
      AddRow(before, columns, c, rows[|rows| - 1])
  }

  /** The number of nodes so far, and whether a row was refused. */
  datatype Growth = Growth(nodes: Nodes, num: nat, full: bool)

  function GrowBy(g: Growth, columns: nat, c: nat, row: Row): (r: Growth)
    requires Wide(g.nodes, columns) && c < columns
  {
    if g.full then g
    else if HasNode(g.nodes, row) then g.(nodes := AddRow(g.nodes, columns, c, row))
    else if g.num >= Cap then g.(full := true)
    else Growth(AddRow(g.nodes, columns, c, row), g.num + 1, false)
  }

  /** MergeTrie's rows: it stops at the first one that would need a node beyond the cap. */
  function Grow(g: Growth, columns: nat, c: nat, rows: seq<Row>): (r: Growth)
    requires Wide(g.nodes, columns) && c < columns
    ensures Wide(r.nodes, columns)
  {
    if rows == [] then g
    else
      var before := Grow(g, columns, c, rows[..|rows| - 1]);
      AddRowWide(before.nodes, columns, c, rows[|rows| - 1]);
      GrowBy(before, columns, c, rows[|rows| - 1])
  }

  /** How many rows it looks at. */
  function Seen(g: Growth, columns: nat, c: nat, rows: seq<Row>): (r: nat)
    requires Wide(g.nodes, columns) && c < columns
    ensures r <= |rows|
  {
    if rows == [] then 0
    else if Grow(g, columns, c, rows[..|rows| - 1]).full then Seen(g, columns, c, rows[..|rows| - 1])
    else |rows|
  }

  function Max(a: int, b: int): int {
    if a < b then b else a
  }

  /** The largest self value seen. */
  function MaxSelf(m: int, rows: seq<Row>): int {
    if rows == [] then m
    else Max(MaxSelf(m, rows[..|rows| - 1]), rows[|rows| - 1].self)
  }

  function WithMaxSelf(m: seq<int>, c: nat, rows: seq<Row>): seq<int> {
    if c < |m| then m[c := MaxSelf(m[c], rows)] else m
  }

  // ----- what the rows add

  /** The child with that id. */
  function ChildWith(ns: seq<Node>, x: nat): Option<Node> {
    if PosOf(ns, x) < |ns| then Some(ns[PosOf(ns, x)]) else None
  }

  function CellTotal(cell: Option<Node>, c: nat): int {
    if cell.Some? then Total(cell.value, c) else 0
  }

  function CellSelf(cell: Option<Node>, c: nat): int {
    if cell.Some? then Self(cell.value, c) else 0
  }

  function ChildAt(nodes: Nodes, p: nat, x: nat): Option<Node> {
    ChildWith(ChildrenOf(nodes, p), x)
  }

  function TotalOf(p: nat, x: nat): Row -> int {
    (row: Row) => if row.parent == p && row.id == x then row.total else 0
  }

  function SelfOf(p: nat, x: nat): Row -> int {
    (row: Row) => if row.parent == p && row.id == x then row.self else 0
  }

  function TotalUnder(p: nat): Row -> int {
    (row: Row) => if row.parent == p then row.total else 0
  }

  lemma {:induction false} PosUpdate(ns: seq<Node>, k: nat, n: Node, x: nat)
    requires k < |ns| && n.nodeId == ns[k].nodeId
    ensures PosOf(ns[k := n], x) == PosOf(ns, x)
  {
    forall j | 0 <= j < |ns| ensures ns[k := n][j].nodeId == ns[j].nodeId {
    }
  }

  lemma {:induction false} PosAppend(ns: seq<Node>, n: Node, x: nat)
    ensures PosOf(ns + [n], x) == if PosOf(ns, x) < |ns| || n.nodeId == x then PosOf(ns, x) else |ns| + 1
  {
    assert (ns + [n])[..|ns|] == ns;
  }

  lemma {:induction false} RowOnCell(ns: seq<Node>, columns: nat, c: nat, row: Row, x: nat)
    requires WideList(ns, columns) && c < columns
    ensures ChildWith(RowOn(ns, columns, c, row), x) ==
            if x != row.id then ChildWith(ns, x)
            else if PosOf(ns, x) < |ns| then Some(RowOn(ns, columns, c, row)[PosOf(ns, x)])
            else Some(NewNode(columns, c, row))
  {
    var pos := PosOf(ns, row.id);
    if pos < |ns| {
      assert WideNode(ns[pos], columns);
      PosUpdate(ns, pos, Bumped(ns[pos], c, row), x);
    } else {
      PosAppend(ns, NewNode(columns, c, row), x);
    }
  }

  /** Child x of p after the row: as it was, bumped, or new. */
  lemma {:induction false} ChildAfter(nodes: Nodes, columns: nat, c: nat, row: Row, p: nat, x: nat)
    requires Wide(nodes, columns) && c < columns
    ensures ChildAt(nodes, p, x).Some? ==> WideNode(ChildAt(nodes, p, x).value, columns)
    ensures ChildAt(AddRow(nodes, columns, c, row), p, x) ==
            if p != row.parent || x != row.id then ChildAt(nodes, p, x)
            else if ChildAt(nodes, p, x).Some? then Some(Bumped(ChildAt(nodes, p, x).value, c, row))
            else Some(NewNode(columns, c, row))
  {
    var kids := ChildrenOf(nodes, p);
    if PosOf(kids, x) < |kids| {
      assert WideNode(kids[PosOf(kids, x)], columns);
    }
    if p == row.parent {
      RowOnCell(kids, columns, c, row, x);
    }
  }

  lemma {:induction false} RowAdds(nodes: Nodes, columns: nat, c: nat, row: Row, p: nat, x: nat, k: nat)
    requires Wide(nodes, columns) && c < columns && k < columns
    ensures var was, now := ChildAt(nodes, p, x), ChildAt(AddRow(nodes, columns, c, row), p, x);
            && CellTotal(now, k) == CellTotal(was, k) + (if k == c then TotalOf(p, x)(row) else 0)
            && CellSelf(now, k) == CellSelf(was, k) + (if k == c then SelfOf(p, x)(row) else 0)
  {
    ChildAfter(nodes, columns, c, row, p, x);
  }

  /** Every cell of the tree grows by exactly the rows for it, in the column of their sample
      type; the other columns stay. */
  lemma {:induction false} RowsAdd(nodes: Nodes, columns: nat, c: nat, rows: seq<Row>, p: nat, x: nat, k: nat)
    requires Wide(nodes, columns) && c < columns && k < columns
    ensures var was, now := ChildAt(nodes, p, x), ChildAt(AddRows(nodes, columns, c, rows), p, x);
            && CellTotal(now, k) == CellTotal(was, k) + (if k == c then SumBy(TotalOf(p, x), rows) else 0)
            && CellSelf(now, k) == CellSelf(was, k) + (if k == c then SumBy(SelfOf(p, x), rows) else 0)
  {
    if rows != [] {
      var init := rows[..|rows| - 1];
      RowsAdd(nodes, columns, c, init, p, x, k);
      RowAdds(AddRows(nodes, columns, c, init), columns, c, rows[|rows| - 1], p, x, k);
    }
  }

  lemma {:induction false} ChildrenGrow(nodes: Nodes, columns: nat, c: nat, rows: seq<Row>, p: nat)
    requires Wide(nodes, columns) && c < columns
    ensures SumTotals(ChildrenOf(AddRows(nodes, columns, c, rows), p), c) ==
            SumTotals(ChildrenOf(nodes, p), c) + SumBy(TotalUnder(p), rows)
  {
    if rows != [] {
      var init := rows[..|rows| - 1];
      ChildrenGrow(nodes, columns, c, init, p);
      ChildrenGrowByOne(AddRows(nodes, columns, c, init), columns, c, rows[|rows| - 1], p);
    }
  }

  lemma {:induction false} ChildrenGrowByOne(nodes: Nodes, columns: nat, c: nat, row: Row, p: nat)
    requires Wide(nodes, columns) && c < columns
    ensures SumTotals(ChildrenOf(AddRow(nodes, columns, c, row), p), c) ==
            SumTotals(ChildrenOf(nodes, p), c) + TotalUnder(p)(row)
  {
    var kids := ChildrenOf(nodes, row.parent);
    var pos := PosOf(kids, row.id);
    if pos < |kids| {
      assert WideNode(kids[pos], columns);
      SumByUpdate(TotalIn(c), kids, pos, Bumped(kids[pos], c, row));
    } else {
      assert (kids + [NewNode(columns, c, row)])[..|kids|] == kids;
    }
  }

  // ----- the shape of the tree

  ghost predicate DistinctChildren(nodes: Nodes) {
    forall p :: p in nodes ==> Distinct(Ids(nodes[p]))
  }

  predicate Occurs(nodes: Nodes, p: nat, x: nat) {
    x in Ids(ChildrenOf(nodes, p))
  }

  /** up gives each id its parent; the root's id 0 is nobody's child, and an id other than 0 has
      children only if it occurs itself. */
  ghost predicate Shaped(nodes: Nodes, up: nat -> nat) {
    && (forall p, x :: Occurs(nodes, p, x) ==> x != 0 && p == up(x))
    && (forall x :: x != 0 && ChildrenOf(nodes, x) != [] ==> Occurs(nodes, up(x), x))
  }

  lemma {:induction false} OccursPos(nodes: Nodes, p: nat, x: nat)
    ensures Occurs(nodes, p, x) <==> PosOf(ChildrenOf(nodes, p), x) < |ChildrenOf(nodes, p)|
  {
    var kids := ChildrenOf(nodes, p);
    if PosOf(kids, x) < |kids| {
      assert Ids(kids)[PosOf(kids, x)] == x;
    }
    if Occurs(nodes, p, x) {
      var k :| 0 <= k < |kids| && Ids(kids)[k] == x;
      assert kids[k].nodeId == x;
    }
  }

  lemma {:induction false} RowOccurs(nodes: Nodes, columns: nat, c: nat, row: Row, p: nat, x: nat)
    requires Wide(nodes, columns) && c < columns
    ensures Occurs(AddRow(nodes, columns, c, row), p, x) <==>
            Occurs(nodes, p, x) || (row.parent == p && row.id == x)
  {
    var r := AddRow(nodes, columns, c, row);
    OccursPos(nodes, p, x);
    OccursPos(r, p, x);
    var kids := ChildrenOf(nodes, row.parent);
    var pos := PosOf(kids, row.id);
    if pos < |kids| {
      assert WideNode(kids[pos], columns);
      PosUpdate(kids, pos, Bumped(kids[pos], c, row), x);
    } else {
      PosAppend(kids, NewNode(columns, c, row), x);
    }
  }

  predicate InRows(rows: seq<Row>, p: nat, x: nat) {
    exists i :: 0 <= i < |rows| && rows[i].parent == p && rows[i].id == x
  }

  lemma {:induction false} RowsOccur(nodes: Nodes, columns: nat, c: nat, rows: seq<Row>, p: nat, x: nat)
    requires Wide(nodes, columns) && c < columns
    ensures Occurs(AddRows(nodes, columns, c, rows), p, x) <==> Occurs(nodes, p, x) || InRows(rows, p, x)
  {
    if rows != [] {
      var n := |rows| - 1;
      RowsOccur(nodes, columns, c, rows[..n], p, x);
      RowOccurs(AddRows(nodes, columns, c, rows[..n]), columns, c, rows[n], p, x);
      assert InRows(rows, p, x) <==> InRows(rows[..n], p, x) || (rows[n].parent == p && rows[n].id == x) by {
        InRowsSplit(rows, p, x);
      }
    }
  }

  lemma {:induction false} InRowsSplit(rows: seq<Row>, p: nat, x: nat)
    requires rows != []
    ensures InRows(rows, p, x) <==>
            InRows(rows[..|rows| - 1], p, x) || (rows[|rows| - 1].parent == p && rows[|rows| - 1].id == x)
  {
    var n := |rows| - 1;
    if InRows(rows[..n], p, x) {
      var i :| 0 <= i < n && rows[..n][i].parent == p && rows[..n][i].id == x;
      assert rows[i].parent == p;
    }
    if InRows(rows, p, x) {
      var i :| 0 <= i < |rows| && rows[i].parent == p && rows[i].id == x;
      if i < n {
        assert rows[..n][i].parent == p;
      }
    }
  }

  lemma {:induction false} RowsKeepDistinct(nodes: Nodes, columns: nat, c: nat, rows: seq<Row>)
    requires Wide(nodes, columns) && c < columns && DistinctChildren(nodes)
    ensures DistinctChildren(AddRows(nodes, columns, c, rows))
  {
    if rows != [] {
      var init := rows[..|rows| - 1];
      RowsKeepDistinct(nodes, columns, c, init);
      RowKeepsDistinct(AddRows(nodes, columns, c, init), columns, c, rows[|rows| - 1]);
    }
  }

  lemma {:induction false} RowKeepsDistinct(nodes: Nodes, columns: nat, c: nat, row: Row)
    requires Wide(nodes, columns) && c < columns && DistinctChildren(nodes)
    ensures DistinctChildren(AddRow(nodes, columns, c, row))
  {
    var kids := ChildrenOf(nodes, row.parent);
    var now := AddRow(nodes, columns, c, row)[row.parent];
    forall i, j | 0 <= i < j < |now| ensures Ids(now)[i] != Ids(now)[j] {
      if j < |kids| {
        assert Ids(kids)[i] != Ids(kids)[j];
      }
    }
  }

  // ----- the invariant Total = Self + children

  /** A stored trie: each row under the parent that up gives its id, that parent being the root
      or in the rows too; and the rows of an id total its self rows plus the rows below it. */
  ghost predicate StoredTrie(rows: seq<Row>, up: nat -> nat) {
    && (forall i :: 0 <= i < |rows| ==> rows[i].id != 0 && rows[i].parent == up(rows[i].id))
    && (forall i :: 0 <= i < |rows| && rows[i].parent != 0 ==> InRows(rows, up(rows[i].parent), rows[i].parent))
    && (forall x :: InRows(rows, up(x), x) ==>
          SumBy(TotalOf(up(x), x), rows) == SumBy(SelfOf(up(x), x), rows) + SumBy(TotalUnder(x), rows))
  }

  lemma {:induction false} NoRows(rows: seq<Row>, p: nat, x: nat)
    requires !InRows(rows, p, x)
    ensures SumBy(TotalOf(p, x), rows) == 0 == SumBy(SelfOf(p, x), rows)
  {
    if rows != [] {
      InRowsSplit(rows, p, x);
      NoRows(rows[..|rows| - 1], p, x);
    }
  }

  lemma {:induction false} NoRowsUnder(rows: seq<Row>, n: nat, p: nat)
    requires n <= |rows| && forall i :: 0 <= i < n ==> rows[i].parent != p
    ensures SumBy(TotalUnder(p), rows[..n]) == 0
  {
    if n > 0 {
      NoRowsUnder(rows, n - 1, p);
      assert rows[..n][..n - 1] == rows[..n - 1];
    }
  }

  lemma {:induction false} StoredBalance(rows: seq<Row>, up: nat -> nat, x: nat)
    requires StoredTrie(rows, up) && x != 0
    ensures SumBy(TotalOf(up(x), x), rows) == SumBy(SelfOf(up(x), x), rows) + SumBy(TotalUnder(x), rows)
  {
    if !InRows(rows, up(x), x) {
      NoRows(rows, up(x), x);
      forall i | 0 <= i < |rows| ensures rows[i].parent != x {
      }
      NoRowsUnder(rows, |rows|, x);
      assert rows[..|rows|] == rows;
    }
  }

  /** Each cell that occurs adds up; an id that does not occur has nothing below it. */
  ghost predicate CellAddsUp(nodes: Nodes, up: nat -> nat, c: nat, x: nat) {
    var cell := ChildAt(nodes, up(x), x);
    CellTotal(cell, c) == CellSelf(cell, c) + SumTotals(ChildrenOf(nodes, x), c)
  }

  lemma {:induction false} AdditiveCells(nodes: Nodes, up: nat -> nat, c: nat, x: nat)
    requires DistinctChildren(nodes) && Shaped(nodes, up) && AdditiveTree(nodes, c) && x != 0
    ensures CellAddsUp(nodes, up, c, x)
  {
    var kids := ChildrenOf(nodes, up(x));
    var pos := PosOf(kids, x);
    OccursPos(nodes, up(x), x);
    if pos < |kids| {
      assert AdditiveNode(Kids(nodes), nodes[up(x)][pos], c);
    } else {
      assert ChildrenOf(nodes, x) == [];
    }
  }

  lemma {:induction false} CellsAdditive(nodes: Nodes, up: nat -> nat, c: nat, p: nat, i: nat)
    requires DistinctChildren(nodes) && p in nodes && i < |nodes[p]|
    requires p == up(nodes[p][i].nodeId) && CellAddsUp(nodes, up, c, nodes[p][i].nodeId)
    ensures AdditiveNode(Kids(nodes), nodes[p][i], c)
  {
    var x := nodes[p][i].nodeId;
    var pos := PosOf(nodes[p], x);
    assert Ids(nodes[p])[pos] == x == Ids(nodes[p])[i];
  }

  /** MergeTrie keeps the invariant of the tree: adding a stored trie to an additive tree of the
      same shape gives an additive tree of that shape. */
  lemma {:induction false} RowsKeepAdditive(nodes: Nodes, columns: nat, c: nat, rows: seq<Row>, up: nat -> nat)
    requires Wide(nodes, columns) && c < columns && DistinctChildren(nodes) && Shaped(nodes, up)
    requires AdditiveTree(nodes, c) && StoredTrie(rows, up)
    ensures AdditiveTree(AddRows(nodes, columns, c, rows), c)
  {
    var r := AddRows(nodes, columns, c, rows);
    RowsKeepDistinct(nodes, columns, c, rows);
    forall p, i | p in r && 0 <= i < |r[p]| ensures AdditiveNode(Kids(r), r[p][i], c) {
      var x := r[p][i].nodeId;
      RowsOccur(nodes, columns, c, rows, p, x);
      assert Ids(r[p])[i] == x;
      assert Occurs(r, p, x);
      RowsCellAddsUp(nodes, columns, c, rows, up, x);
      CellsAdditive(r, up, c, p, i);
    }
  }

  lemma {:induction false} RowsCellAddsUp(nodes: Nodes, columns: nat, c: nat, rows: seq<Row>, up: nat -> nat, x: nat)
    requires Wide(nodes, columns) && c < columns && DistinctChildren(nodes) && Shaped(nodes, up)
    requires AdditiveTree(nodes, c) && StoredTrie(rows, up) && x != 0
    ensures CellAddsUp(AddRows(nodes, columns, c, rows), up, c, x)
  {
    AdditiveCells(nodes, up, c, x);
    StoredBalance(rows, up, x);
    RowsAdd(nodes, columns, c, rows, up(x), x, c);
    ChildrenGrow(nodes, columns, c, rows, x);
  }

  lemma {:induction false} RowsKeepShape(nodes: Nodes, columns: nat, c: nat, rows: seq<Row>, up: nat -> nat)
    requires Wide(nodes, columns) && c < columns && Shaped(nodes, up) && StoredTrie(rows, up)
    ensures Shaped(AddRows(nodes, columns, c, rows), up)
  {
    var r := AddRows(nodes, columns, c, rows);
    forall p, x | Occurs(r, p, x) ensures x != 0 && p == up(x) {
      RowsOccur(nodes, columns, c, rows, p, x);
    }
    forall x | x != 0 && ChildrenOf(r, x) != [] ensures Occurs(r, up(x), x) {
      var y := ChildrenOf(r, x)[0].nodeId;
      assert Ids(ChildrenOf(r, x))[0] == y;
      RowsOccur(nodes, columns, c, rows, x, y);
      RowsOccur(nodes, columns, c, rows, up(x), x);
      if Occurs(nodes, x, y) {
        assert ChildrenOf(nodes, x) != [];
      }
    }
  }

  // ----- names

  /** Names by function id: an index into the list of names. */
  datatype NameTable = NameTable(names: seq<string>, index: map<nat, nat>)

  predicate NamesOk(t: NameTable) {
    forall id :: id in t.index ==> t.index[id] < |t.names|
  }

  function NameOf(t: NameTable, id: nat): string
    requires NamesOk(t) && id in t.index
  {
    t.names[t.index[id]]
  }

  function WithName(t: NameTable, id: nat, name: string): NameTable {
    if id in t.index then t else NameTable(t.names + [name], t.index[id := |t.names|])
  }

  function AddFunctions(t: NameTable, fs: seq<(nat, string)>): NameTable {
    if fs == [] then t
    else
      var before := AddFunctions(t, fs[..|fs| - 1]);
      var f := fs[|fs| - 1];
      if |before.index| < Cap then WithName(before, f.0, f.1) else before
  }

  /** Names once given stay. */
  lemma {:induction false} NamesStay(t: NameTable, fs: seq<(nat, string)>)
    requires NamesOk(t)
    ensures var r := AddFunctions(t, fs);
            NamesOk(r) && t.names <= r.names && forall id :: id in t.index ==> id in r.index && r.index[id] == t.index[id]
  {
    if fs != [] {
      NamesStay(t, fs[..|fs| - 1]);
    }
  }

  /** Below the cap every function gets a name. */
  lemma {:induction false} AllNamed(t: NameTable, fs: seq<(nat, string)>, i: nat)
    requires |AddFunctions(t, fs).index| < Cap && i < |fs|
    ensures fs[i].0 in AddFunctions(t, fs).index
  {
    var n := |fs| - 1;
    var before := AddFunctions(t, fs[..n]);
    if |before.index| < Cap && i < n {
      AllNamed(t, fs[..n], i);
      assert fs[..n][i] == fs[i];
    }
  }

  ghost predicate FirstNamed(fs: seq<(nat, string)>, id: nat, name: string, i: nat) {
    i < |fs| && fs[i] == (id, name) && forall k :: 0 <= k < i ==> fs[k].0 != id
  }

  /** A new name is that of the first function with its id. */
  lemma {:induction false} FirstNameWins(t: NameTable, fs: seq<(nat, string)>, id: nat) returns (i: nat)
    requires NamesOk(t) && NamesOk(AddFunctions(t, fs)) && id in AddFunctions(t, fs).index && id !in t.index
    ensures FirstNamed(fs, id, NameOf(AddFunctions(t, fs), id), i)
  {
    var n := |fs| - 1;
    var before := AddFunctions(t, fs[..n]);
    NamesStay(t, fs[..n]);
    if id in before.index {
      i := FirstNameWins(t, fs[..n], id);
      assert fs[..n][i] == fs[i] && forall k :: 0 <= k < i ==> fs[..n][k] == fs[k];
    } else {
      i := n;
      forall k | 0 <= k < n ensures fs[k].0 != id {
        assert fs[..n][k] == fs[k];
        AllNamed(t, fs[..n], k);
      }
    }
  }

  // ----- the cap

  predicate NewRow(nodes: Nodes, rows: seq<Row>, i: nat)
    requires i < |rows|
  {
    !Occurs(nodes, rows[i].parent, rows[i].id) && !InRows(rows[..i], rows[i].parent, rows[i].id)
  }

  /** How many children the rows name that were not there before. */
  function NewRows(nodes: Nodes, rows: seq<Row>, m: nat): nat
    requires m <= |rows|
  {
    if m == 0 then 0 else NewRows(nodes, rows, m - 1) + if NewRow(nodes, rows, m - 1) then 1 else 0
  }

  lemma {:induction false} NewRowsPrefix(nodes: Nodes, rows: seq<Row>, n: nat, m: nat)
    requires m <= n <= |rows|
    ensures NewRows(nodes, rows[..n], m) == NewRows(nodes, rows, m)
  {
    if m > 0 {
      NewRowsPrefix(nodes, rows, n, m - 1);
      assert rows[..n][..m - 1] == rows[..m - 1];
    }
  }

  /** r is what the first m rows make of g. All rows count unless row m is refused: it needs a new
      child, and the number of nodes, which has grown by the new children of the first m rows, has
      reached the cap. */
  ghost predicate GrownTo(g: Growth, r: Growth, columns: nat, c: nat, rows: seq<Row>, m: nat)
    requires Wide(g.nodes, columns) && c < columns
  {
    && m <= |rows| && r.nodes == AddRows(g.nodes, columns, c, rows[..m])
    && r.num == g.num + NewRows(g.nodes, rows, m)
    && (r.full <==> m < |rows|)
    && (m < |rows| ==> r.num >= Cap && NewRow(g.nodes, rows, m))
  }

  lemma {:induction false} GrowIsPrefix(g: Growth, columns: nat, c: nat, rows: seq<Row>) returns (m: nat)
    requires Wide(g.nodes, columns) && c < columns && !g.full
    ensures GrownTo(g, Grow(g, columns, c, rows), columns, c, rows, m)
  {
    if rows == [] {
      m := 0;
    } else {
      var n := |rows| - 1;
      m := GrowIsPrefix(g, columns, c, rows[..n]);
      NewRowsPrefix(g.nodes, rows, n, m);
      assert rows[..n][..m] == rows[..m];
      var before := Grow(g, columns, c, rows[..n]);
      if before.full {
        assert NewRow(g.nodes, rows[..n], m) == NewRow(g.nodes, rows, m);
      } else {
        assert m == n && rows[..|rows|] == rows;
        NewHere(g.nodes, columns, c, rows);
        m := if HasNode(before.nodes, rows[n]) || before.num < Cap then n + 1 else n;
        GrownByOne(g, before, columns, c, rows, m);
      }
    }
  }

  lemma {:induction false} GrownByOne(g: Growth, before: Growth, columns: nat, c: nat, rows: seq<Row>, m: nat)
    requires Wide(g.nodes, columns) && c < columns && rows != [] && !before.full
    requires before.nodes == AddRows(g.nodes, columns, c, rows[..|rows| - 1])
    requires before.num == g.num + NewRows(g.nodes, rows, |rows| - 1)
    requires HasNode(before.nodes, rows[|rows| - 1]) <==> !NewRow(g.nodes, rows, |rows| - 1)
    requires m == if HasNode(before.nodes, rows[|rows| - 1]) || before.num < Cap then |rows| else |rows| - 1
    ensures GrownTo(g, GrowBy(before, columns, c, rows[|rows| - 1]), columns, c, rows, m)
  {
    assert rows[..|rows|] == rows;
  }

  lemma {:induction false} NewHere(nodes: Nodes, columns: nat, c: nat, rows: seq<Row>)
    requires Wide(nodes, columns) && c < columns && rows != []
    ensures var n := |rows| - 1;
            HasNode(AddRows(nodes, columns, c, rows[..n]), rows[n]) <==> !NewRow(nodes, rows, n)
  {
    var n := |rows| - 1;
    RowsOccur(nodes, columns, c, rows[..n], rows[n].parent, rows[n].id);
    OccursPos(AddRows(nodes, columns, c, rows[..n]), rows[n].parent, rows[n].id);
  }

  predicate IsLargest(r: int, m: int, rows: seq<Row>) {
    && m <= r && (forall i :: 0 <= i < |rows| ==> rows[i].self <= r)
    && (r == m || exists i :: 0 <= i < |rows| && rows[i].self == r)
  }

  lemma {:induction false} MaxSelfIsLargest(m: int, rows: seq<Row>)
    ensures IsLargest(MaxSelf(m, rows), m, rows)
  {
    if rows != [] {
      var n := |rows| - 1;
      MaxSelfIsLargest(m, rows[..n]);
      var r := MaxSelf(m, rows[..n]);
      if r != m {
        var i :| 0 <= i < n && rows[..n][i].self == r;
        assert rows[i].self == r;
      }
      assert forall i :: 0 <= i < n ==> rows[..n][i] == rows[i];
    }
  }

  // ----- which function a node shows

  predicate RowFor(row: Row, p: nat, x: nat) {
    row.parent == p && row.id == x
  }

  /** Row i is the first one for child x of p. */
  ghost predicate FirstRow(rows: seq<Row>, p: nat, x: nat, i: nat) {
    i < |rows| && RowFor(rows[i], p, x) && forall k :: 0 <= k < i ==> !RowFor(rows[k], p, x)
  }

  /** The child's function against the rows: one that was there keeps its function, a new one has
      that of its first row i, and without a row for it there is none. */
  ghost predicate FunctionFrom(was: Option<Node>, now: Option<Node>, rows: seq<Row>, p: nat, x: nat, i: nat) {
    && (was.Some? ==> now.Some? && now.value.fnId == was.value.fnId)
    && (was.None? && now.Some? ==> FirstRow(rows, p, x, i) && now.value.fnId == rows[i].fn)
    && (was.None? && now.None? ==> forall k :: 0 <= k < |rows| ==> !RowFor(rows[k], p, x))
  }

  lemma {:induction false} RowsGiveFunctions(nodes: Nodes, columns: nat, c: nat, rows: seq<Row>, p: nat, x: nat)
    returns (i: nat)
    requires Wide(nodes, columns) && c < columns
    ensures FunctionFrom(ChildAt(nodes, p, x), ChildAt(AddRows(nodes, columns, c, rows), p, x), rows, p, x, i)
  {
    i := 0;
    if rows != [] {
      var n := |rows| - 1;
      i := RowsGiveFunctions(nodes, columns, c, rows[..n], p, x);
      var before := AddRows(nodes, columns, c, rows[..n]);
      RowGivesFunction(before, columns, c, rows[n], p, x);
      i := FunctionNext(ChildAt(nodes, p, x), ChildAt(before, p, x), ChildAt(AddRow(before, columns, c, rows[n]), p, x),
                        rows, p, x, i);
    }
  }

  lemma {:induction false} FunctionNext(was: Option<Node>, mid: Option<Node>, now: Option<Node>, rows: seq<Row>,
                                        p: nat, x: nat, i: nat) returns (j: nat)
    requires rows != [] && FunctionFrom(was, mid, rows[..|rows| - 1], p, x, i)
    requires mid.Some? ==> now.Some? && now.value.fnId == mid.value.fnId
    requires var row := rows[|rows| - 1];
             mid.None? ==> (now.Some? <==> RowFor(row, p, x)) && (now.Some? ==> now.value.fnId == row.fn)
    ensures FunctionFrom(was, now, rows, p, x, j)
  {
    var n := |rows| - 1;
    j := if mid.None? then n else i;
    assert forall k :: 0 <= k < n ==> rows[..n][k] == rows[k];
  }

  lemma {:induction false} RowGivesFunction(nodes: Nodes, columns: nat, c: nat, row: Row, p: nat, x: nat)
    requires Wide(nodes, columns) && c < columns
    ensures var was, now := ChildAt(nodes, p, x), ChildAt(AddRow(nodes, columns, c, row), p, x);
            && (was.Some? ==> now.Some? && now.value.fnId == was.value.fnId)
            && (was.None? ==> (now.Some? <==> RowFor(row, p, x)) && (now.Some? ==> now.value.fnId == row.fn))
  {
    ChildAfter(nodes, columns, c, row, p, x);
  }

  /** The text under which function id f stands: the one it had or, for a new one, that of the
      first function with this id. */
  ghost predicate ShownAs(t: NameTable, fs: seq<(nat, string)>, f: nat, name: string) {
    if f in t.index then t.index[f] < |t.names| && name == t.names[t.index[f]]
    else exists j: nat :: FirstNamed(fs, f, name, j)
  }

  /** Adding a stored trie with its functions, both below the caps: a new node is drawn under the
      text of the function that its first row names. */
  lemma {:induction false} NewNodeName(nodes: Nodes, columns: nat, c: nat, rows: seq<Row>, p: nat, x: nat,
                                       t: NameTable, fs: seq<(nat, string)>, m: nat)
    returns (i: nat)
    requires Wide(nodes, columns) && c < columns && NamesOk(t)
    requires ChildAt(nodes, p, x).None? && ChildAt(AddRows(nodes, columns, c, rows), p, x).Some?
    requires |AddFunctions(t, fs).index| < Cap
    ensures FirstRow(rows, p, x, i)
    ensures m < |fs| && fs[m].0 == rows[i].fn ==>
              var f := ChildAt(AddRows(nodes, columns, c, rows), p, x).value.fnId;
              && f == rows[i].fn && NamesOk(AddFunctions(t, fs)) && f in AddFunctions(t, fs).index
              && ShownAs(t, fs, rows[i].fn, NameOf(AddFunctions(t, fs), f))
  {
    i := RowsGiveFunctions(nodes, columns, c, rows, p, x);
    NamesStay(t, fs);
    if m < |fs| && fs[m].0 == rows[i].fn {
      AllNamed(t, fs, m);
      if rows[i].fn !in t.index {
        var j := FirstNameWins(t, fs, rows[i].fn);
      }
    }
  }

  function SampleTypeIndex(types: seq<string>, t: string): (r: nat)
    ensures r <= |types| && (r < |types| ==> types[r] == t) && forall k :: 0 <= k < r ==> types[k] != t
  {
    if types == [] then 0
    else
      var n := |types| - 1;
      var r := SampleTypeIndex(types[..n], t);
      if r < n || types[n] == t then r else |types|
  }

  class Tree {
    var nodes: Nodes
    var names: seq<string>
    var namesMap: map<nat, nat>
    var sampleTypes: seq<string>
    var maxSelf: seq<int>
    var nodesNum: nat

    constructor ()
      ensures nodes == map[] && names == ["total", "n/a"] && namesMap == map[]
      ensures sampleTypes == [] && maxSelf == [0] && nodesNum == 0
    {
      nodes, names, namesMap := map[], ["total", "n/a"], map[];
      sampleTypes, maxSelf, nodesNum := [], [0], 0;
    }

    ghost function Named(): NameTable
      reads this
    {
      NameTable(names, namesMap)
    }

    ghost function Grown(full: bool): Growth
      reads this
    {
      Growth(nodes, nodesNum, full)
    }

    /** AddName: an id keeps the name it has. */
    method AddName(name: string, id: nat)
      modifies this`names, this`namesMap
      ensures Named() == WithName(old(Named()), id, name)
    {
      if id !in namesMap {
        names := names + [name];
        namesMap := namesMap[id := |names| - 1];
      }
    }

    method AddNames(fs: seq<(nat, string)>)
      modifies this`names, this`namesMap
      ensures Named() == AddFunctions(old(Named()), fs)
    {
      for i := 0 to |fs|
        invariant Named() == AddFunctions(old(Named()), fs[..i])
      {
        assert fs[..i + 1][..i] == fs[..i];
        if |namesMap| < Cap {
          AddName(fs[i].1, fs[i].0);
        }
      }
      assert fs[..|fs|] == fs;
    }

    /** One row; full when it needs a node beyond the cap. */
    method AddOne(row: Row, c: nat) returns (full: bool)
      requires Wide(nodes, |sampleTypes|) && c < |sampleTypes|
      modifies this`nodes, this`nodesNum
      ensures Grown(full) == GrowBy(old(Grown(false)), |sampleTypes|, c, row)
    {
      var kids := ChildrenOf(nodes, row.parent);
      var pos := FindNode(row.id, kids);
      if pos != -1 {
        assert WideNode(kids[pos], |sampleTypes|);
        nodes := nodes[row.parent := kids[pos := Bumped(kids[pos], c, row)]];
        return false;
      }
      if nodesNum >= Cap {
        return true;
      }
      nodes := nodes[row.parent := kids + [NewNode(|sampleTypes|, c, row)]];
      nodesNum := nodesNum + 1;
      return false;
    }

    method NoteSelf(c: nat, x: int)
      requires c < |maxSelf|
      modifies this`maxSelf
      ensures maxSelf == old(maxSelf)[c := Max(old(maxSelf[c]), x)]
    {
      if maxSelf[c] < x {
        maxSelf := maxSelf[c := x];
      }
    }

    /** The row loop. */
    method MergeRows(rows: seq<Row>, c: nat)
      requires Wide(nodes, |sampleTypes|) && c < |sampleTypes| && (rows != [] ==> c < |maxSelf|)
      modifies this`nodes, this`nodesNum, this`maxSelf
      ensures var r := Grow(old(Grown(false)), |sampleTypes|, c, rows);
              nodes == r.nodes && nodesNum == r.num
      ensures maxSelf == WithMaxSelf(old(maxSelf), c, rows[..Seen(old(Grown(false)), |sampleTypes|, c, rows)])
    {
      ghost var g := Grown(false);
      var i := 0;
      while i < |rows|
        invariant i <= |rows| && Wide(nodes, |sampleTypes|)
        invariant Grown(false) == Grow(g, |sampleTypes|, c, rows[..i])
        invariant |maxSelf| == |old(maxSelf)| && maxSelf == WithMaxSelf(old(maxSelf), c, rows[..i])
      {
        assert rows[..i + 1][..i] == rows[..i];
        AddRowWide(nodes, |sampleTypes|, c, rows[i]);
        var full := AddOne(rows[i], c);
        NoteSelf(c, rows[i].self);
        MaxStep(old(maxSelf), c, rows, i);
        i := i + 1;
        if full {
          FullStays(g, |sampleTypes|, c, rows, i);
          return;
        }
      }
      assert rows[..|rows|] == rows;
      NotFullSeesAll(g, |sampleTypes|, c, rows);
    }

    /** MergeTrie; it panics on a sample type beyond the maxSelf slots, which NewTree makes one. */
    method MergeTrie(rows: seq<Row>, functions: seq<(nat, string)>, sampleType: string) returns (panicked: bool)
      requires Wide(nodes, |sampleTypes|)
      modifies this`nodes, this`nodesNum, this`names, this`namesMap, this`maxSelf
      ensures var c := SampleTypeIndex(sampleTypes, sampleType);
              && (panicked <==> c < |sampleTypes| && c >= |maxSelf| && rows != [])
              && (c == |sampleTypes| ==> Grown(false) == old(Grown(false)) && Named() == old(Named()) && maxSelf == old(maxSelf))
              && (!panicked && c < |sampleTypes| ==>
                    var r := Grow(old(Grown(false)), |sampleTypes|, c, rows);
                    && nodes == r.nodes && nodesNum == r.num && Named() == AddFunctions(old(Named()), functions)
                    && maxSelf == WithMaxSelf(old(maxSelf), c, rows[..Seen(old(Grown(false)), |sampleTypes|, c, rows)]))
    {
      var c := SampleTypeIndex(sampleTypes, sampleType);
      if c == |sampleTypes| {
        return false;
      }
      AddNames(functions);
      if rows != [] && c >= |maxSelf| {
        return true;
      }
      MergeRows(rows, c);
      return false;
    }
  }

  lemma {:induction false} MaxStep(m: seq<int>, c: nat, rows: seq<Row>, i: nat)
    requires c < |m| && i < |rows|
    ensures WithMaxSelf(m, c, rows[..i + 1]) ==
            WithMaxSelf(m, c, rows[..i])[c := Max(WithMaxSelf(m, c, rows[..i])[c], rows[i].self)]
  {
    assert rows[..i + 1][..i] == rows[..i];
  }

  lemma {:induction false} NotFullSeesAll(g: Growth, columns: nat, c: nat, rows: seq<Row>)
    requires Wide(g.nodes, columns) && c < columns && !Grow(g, columns, c, rows).full
    ensures Seen(g, columns, c, rows) == |rows|
  {
  }

  lemma {:induction false} FullStays(g: Growth, columns: nat, c: nat, rows: seq<Row>, n: nat)
    requires Wide(g.nodes, columns) && c < columns && n <= |rows| && Grow(g, columns, c, rows[..n]).full
    ensures Grow(g, columns, c, rows) == Grow(g, columns, c, rows[..n])
    ensures Seen(g, columns, c, rows) == Seen(g, columns, c, rows[..n])
  {
    if n == |rows| {
      assert rows[..n] == rows;
    } else {
      assert rows[..|rows| - 1][..n] == rows[..n];
      FullStays(g, columns, c, rows[..|rows| - 1], n);
    }
  }

  /** Every name the other tree has is added, unless the id has one already. */
  ghost predicate NamesTaken(was: NameTable, other: NameTable, now: NameTable)
    requires NamesOk(other)
  {
    && NamesOk(now) && was.names <= now.names && now.index.Keys == was.index.Keys + other.index.Keys
    && (forall id :: id in was.index ==> now.index[id] == was.index[id])
    && (forall id :: id in other.index && id !in was.index ==> NameOf(now, id) == NameOf(other, id))
  }

  /** The first part of synchronizeNames: t takes the names of other. */
  method TakeNames(t: Tree, other: Tree)
    requires t != other && NamesOk(t.Named()) && NamesOk(other.Named())
    modifies t`names, t`namesMap
    ensures NamesTaken(old(t.Named()), other.Named(), t.Named())
  {
    var left := other.namesMap.Keys - t.namesMap.Keys;
    ghost var was, from := t.Named(), other.Named();
    while left != {}
      invariant other.Named() == from && NamesOk(t.Named()) && was.names <= t.names
      invariant left <= from.index.Keys && left !! t.namesMap.Keys
      invariant t.namesMap.Keys + left == was.index.Keys + from.index.Keys
      invariant forall id :: id in was.index ==> id in t.namesMap && t.namesMap[id] == was.index[id]
      invariant forall id :: id in t.namesMap && id !in was.index ==> NameOf(t.Named(), id) == NameOf(from, id)
      decreases left
    {
      var id :| id in left;
      ghost var before := t.Named();
      t.AddName(other.names[other.namesMap[id]], id);
      assert forall x :: x in before.index ==> NameOf(t.Named(), x) == NameOf(before, x);
      left := left - {id};
    }
  }

  /** synchronizeNames: afterwards both trees name the same functions. */
  method SynchronizeNames(t1: Tree, t2: Tree)
    requires t1 != t2 && NamesOk(t1.Named()) && NamesOk(t2.Named())
    modifies t1`names, t1`namesMap, t2`names, t2`namesMap
    ensures NamesTaken(old(t2.Named()), old(t1.Named()), t2.Named())
    ensures NamesTaken(old(t1.Named()), old(t2.Named()), t1.Named())
    ensures t1.namesMap.Keys == t2.namesMap.Keys
  {
    TakeNames(t2, t1);
    TakeNames(t1, t2);
  }
}
