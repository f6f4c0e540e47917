/** mergeNodes: two trees get the same children, in the same order, under every node; a node
    that only one tree has becomes an empty node in the other. */
module FlameMerge {
  import opened Sequences
  import opened FlameBars
  import opened FlameLayout
  import opened FlameTree

  function Zero(n: nat): (r: seq<int>)
    ensures |r| == n && forall i :: 0 <= i < n ==> r[i] == 0
  {
    seq(n, i => 0)
  }

  function EmptyNode(n: Node): Node {
    Node(n.fnId, n.nodeId, Zero(|n.self|), Zero(|n.total|))
  }

  ghost predicate StrictIds(ns: seq<Node>) {
    forall i, j :: 0 <= i < j < |ns| ==> ns[i].nodeId < ns[j].nodeId
  }

  // ----- sorting by node id

  /** ns is s in another order. */
  ghost predicate Reordered(s: seq<Node>, ns: seq<Node>) {
    multiset(s) == multiset(ns)
  }

  /** sort.Slice by NodeID, on children with distinct ids. */
  method SortById(s: seq<Node>) returns (r: seq<Node>)
    requires Distinct(Ids(s))
    ensures StrictIds(r) && Reordered(s, r)
  {
    r := [];
    assert Ids(s)[..0] == [];
    for i := 0 to |s|
      invariant StrictIds(r) && multiset(r) == multiset(s[..i])
    {
      assert s[..i + 1] == s[..i] + [s[i]];
      forall k | 0 <= k < |r| ensures r[k].nodeId != s[i].nodeId {
        assert r[k] in multiset(r);
        assert r[k] in s[..i];
        var j :| 0 <= j < i && s[j] == r[k];
        assert Ids(s)[j] != Ids(s)[i];
      }
      r := InsertById(r, s[i]);
    }
    assert s[..|s|] == s;
  }

  method InsertById(s: seq<Node>, n: Node) returns (r: seq<Node>)
    requires StrictIds(s) && forall k :: 0 <= k < |s| ==> s[k].nodeId != n.nodeId
    ensures StrictIds(r) && multiset(r) == multiset(s) + multiset{n}
  {
    var i := 0;
    while i < |s| && s[i].nodeId < n.nodeId
      invariant i <= |s| && forall k :: 0 <= k < i ==> s[k].nodeId < n.nodeId
    {
      i := i + 1;
    }
    r := s[..i] + [n] + s[i..];
    assert s == s[..i] + s[i..];
  }

  // ----- merging two sorted child lists

  /** r is a with empty nodes, made from other, where a has no node of that id. */
  ghost predicate Filled(a: seq<Node>, r: seq<Node>, other: seq<Node>) {
    && |r| == |other|
    && (forall k :: 0 <= k < |r| ==>
          r[k].nodeId == other[k].nodeId && (r[k] in a || (r[k].nodeId !in Ids(a) && r[k] == EmptyNode(other[k]))))
    && (forall n :: n in a ==> n in r)
    && (forall c: nat :: SumTotals(r, c) == SumTotals(a, c))
  }

  /** Both child lists aligned: equal ids in strictly increasing order, each list filled up. */
  ghost predicate AlignedLists(a: seq<Node>, b: seq<Node>, r1: seq<Node>, r2: seq<Node>) {
    && StrictIds(r1) && Filled(a, r1, r2) && Filled(b, r2, r1)
    && forall k :: 0 <= k < |r1| ==> r1[k] in a || r2[k] in b
  }

  /** The merge so far: i and j nodes consumed, everything left is larger. */
  ghost predicate MergedUpTo(a: seq<Node>, i: nat, b: seq<Node>, j: nat, r1: seq<Node>, r2: seq<Node>)
    requires i <= |a| && j <= |b|
  {
    && AlignedLists(a[..i], b[..j], r1, r2)
    && (forall k, l :: 0 <= k < |r1| && i <= l < |a| ==> r1[k].nodeId < a[l].nodeId)
    && (forall k, l :: 0 <= k < |r1| && j <= l < |b| ==> r1[k].nodeId < b[l].nodeId)
  }

  lemma {:induction false} SumAppend(ns: seq<Node>, n: Node, c: nat)
    ensures SumTotals(ns + [n], c) == SumTotals(ns, c) + Total(n, c)
  {
    assert (ns + [n])[..|ns|] == ns;
  }

  lemma {:induction false} FilledByOwn(a: seq<Node>, r: seq<Node>, other: seq<Node>, n: Node, m: Node)
    requires Filled(a, r, other) && n.nodeId == m.nodeId
    requires forall k :: 0 <= k < |r| ==> r[k].nodeId < n.nodeId
    ensures Filled(a + [n], r + [n], other + [m])
  {
    assert Ids(a + [n]) == Ids(a) + [n.nodeId];
    forall c: nat ensures SumTotals(r + [n], c) == SumTotals(a + [n], c) {
      SumAppend(r, n, c);
      SumAppend(a, n, c);
    }
  }

  lemma {:induction false} FilledByEmpty(a: seq<Node>, r: seq<Node>, other: seq<Node>, m: Node)
    requires Filled(a, r, other)
    requires forall k :: 0 <= k < |r| ==> r[k].nodeId < m.nodeId
    ensures Filled(a, r + [EmptyNode(m)], other + [m])
  {
    forall k | 0 <= k < |a| ensures Ids(a)[k] != m.nodeId {
      assert a[k] in r;
    }
    forall c: nat ensures SumTotals(r + [EmptyNode(m)], c) == SumTotals(a, c) {
      SumAppend(r, EmptyNode(m), c);
    }
  }

  lemma {:induction false} TakeBoth(a: seq<Node>, i: nat, b: seq<Node>, j: nat, r1: seq<Node>, r2: seq<Node>)
    requires StrictIds(a) && StrictIds(b) && i < |a| && j < |b| && a[i].nodeId == b[j].nodeId
    requires MergedUpTo(a, i, b, j, r1, r2)
    ensures MergedUpTo(a, i + 1, b, j + 1, r1 + [a[i]], r2 + [b[j]])
  {
    assert a[..i + 1] == a[..i] + [a[i]] && b[..j + 1] == b[..j] + [b[j]];
    FilledByOwn(a[..i], r1, r2, a[i], b[j]);
    FilledByOwn(b[..j], r2, r1, b[j], a[i]);
  }

  lemma {:induction false} TakeLeft(a: seq<Node>, i: nat, b: seq<Node>, j: nat, r1: seq<Node>, r2: seq<Node>)
    requires StrictIds(a) && StrictIds(b) && i < |a| && j <= |b| && (j < |b| ==> a[i].nodeId < b[j].nodeId)
    requires MergedUpTo(a, i, b, j, r1, r2)
    ensures MergedUpTo(a, i + 1, b, j, r1 + [a[i]], r2 + [EmptyNode(a[i])])
  {
    assert a[..i + 1] == a[..i] + [a[i]];
    FilledByOwn(a[..i], r1, r2, a[i], EmptyNode(a[i]));
    FilledByEmpty(b[..j], r2, r1, a[i]);
  }

  lemma {:induction false} Mirror(a: seq<Node>, i: nat, b: seq<Node>, j: nat, r1: seq<Node>, r2: seq<Node>)
    requires i <= |a| && j <= |b| && MergedUpTo(a, i, b, j, r1, r2)
    ensures MergedUpTo(b, j, a, i, r2, r1)
  {
  }

  lemma {:induction false} TakeRight(a: seq<Node>, i: nat, b: seq<Node>, j: nat, r1: seq<Node>, r2: seq<Node>)
    requires StrictIds(a) && StrictIds(b) && i <= |a| && j < |b| && (i < |a| ==> b[j].nodeId < a[i].nodeId)
    requires MergedUpTo(a, i, b, j, r1, r2)
    ensures MergedUpTo(a, i, b, j + 1, r1 + [EmptyNode(b[j])], r2 + [b[j]])
  {
    Mirror(a, i, b, j, r1, r2);
    TakeLeft(b, j, a, i, r2, r1);
    Mirror(b, j + 1, a, i, r2 + [b[j]], r1 + [EmptyNode(b[j])]);
  }

  /** The main loop of mergeChildren, until one list is used up. */
  method MergeCommon(a: seq<Node>, b: seq<Node>) returns (i: nat, j: nat, r1: seq<Node>, r2: seq<Node>)
    requires StrictIds(a) && StrictIds(b)
    ensures i <= |a| && j <= |b| && (i == |a| || j == |b|) && MergedUpTo(a, i, b, j, r1, r2)
  {
    r1, r2, i, j := [], [], 0, 0;
    while i < |a| && j < |b|
      invariant i <= |a| && j <= |b| && MergedUpTo(a, i, b, j, r1, r2)
      decreases |a| - i + |b| - j
    {
      if a[i].nodeId == b[j].nodeId {
        TakeBoth(a, i, b, j, r1, r2);
        r1, r2, i, j := r1 + [a[i]], r2 + [b[j]], i + 1, j + 1;
      } else if a[i].nodeId < b[j].nodeId {
        TakeLeft(a, i, b, j, r1, r2);
        r1, r2, i := r1 + [a[i]], r2 + [EmptyNode(a[i])], i + 1;
      } else {
        TakeRight(a, i, b, j, r1, r2);
        r1, r2, j := r1 + [EmptyNode(b[j])], r2 + [b[j]], j + 1;
      }
    }
  }

  method MergeChildren(a: seq<Node>, b: seq<Node>) returns (r1: seq<Node>, r2: seq<Node>)
    requires StrictIds(a) && StrictIds(b)
    ensures AlignedLists(a, b, r1, r2)
  {
    var i, j;
    i, j, r1, r2 := MergeCommon(a, b);
    r1, r2 := RestOfLeft(a, i, b, j, r1, r2);
    r1, r2 := RestOfRight(a, b, j, r1, r2);
    assert a[..|a|] == a && b[..|b|] == b;
  }

  /** The children that only the left list still has; none while the right one is not used up. */
  method RestOfLeft(a: seq<Node>, from: nat, b: seq<Node>, j: nat, s1: seq<Node>, s2: seq<Node>)
    returns (r1: seq<Node>, r2: seq<Node>)
    requires StrictIds(a) && StrictIds(b) && from <= |a| && j <= |b| && (from == |a| || j == |b|)
    requires MergedUpTo(a, from, b, j, s1, s2)
    ensures MergedUpTo(a, |a|, b, j, r1, r2)
  {
    r1, r2 := s1, s2;
    for i := from to |a|
      invariant MergedUpTo(a, i, b, j, r1, r2)
    {
      TakeLeft(a, i, b, j, r1, r2);
      r1, r2 := r1 + [a[i]], r2 + [EmptyNode(a[i])];
    }
  }

  method RestOfRight(a: seq<Node>, b: seq<Node>, from: nat, s1: seq<Node>, s2: seq<Node>)
    returns (r1: seq<Node>, r2: seq<Node>)
    requires StrictIds(a) && StrictIds(b) && from <= |b| && MergedUpTo(a, |a|, b, from, s1, s2)
    ensures MergedUpTo(a, |a|, b, |b|, r1, r2)
  {
    r1, r2 := s1, s2;
    for j := from to |b|
      invariant MergedUpTo(a, |a|, b, j, r1, r2)
    {
      TakeRight(a, |a|, b, j, r1, r2);
      r1, r2 := r1 + [EmptyNode(b[j])], r2 + [b[j]];
    }
  }

  // ----- merging two trees

  ghost predicate MergedKey(n1: Nodes, n2: Nodes, m1: Nodes, m2: Nodes, p: nat) {
    p in m1 && p in m2 && AlignedLists(ChildrenOf(n1, p), ChildrenOf(n2, p), m1[p], m2[p])
  }

  /** m1 and m2 are n1 and n2 after mergeNodes. */
  ghost predicate MergedTrees(n1: Nodes, n2: Nodes, m1: Nodes, m2: Nodes) {
    && m1.Keys == n1.Keys + n2.Keys && m2.Keys == m1.Keys
    && forall p :: p in m1 ==> MergedKey(n1, n2, m1, m2, p)
  }

  lemma {:induction false} FilledReordered(a: seq<Node>, s: seq<Node>, r: seq<Node>, other: seq<Node>)
    requires Reordered(a, s) && Filled(s, r, other)
    ensures Filled(a, r, other)
  {
    forall n ensures n in a <==> n in s {
      assert n in a <==> n in multiset(a);
      assert n in s <==> n in multiset(s);
    }
    forall k | 0 <= k < |a| ensures Ids(a)[k] in Ids(s) {
      assert a[k] in s;
      var l :| 0 <= l < |s| && s[l] == a[k];
      assert Ids(s)[l] == Ids(a)[k];
    }
    forall c: nat ensures SumTotals(s, c) == SumTotals(a, c) {
      SumByPermutation(TotalIn(c), s, a);
    }
  }

  lemma {:induction false} AlignedReordered(a: seq<Node>, s1: seq<Node>, b: seq<Node>, s2: seq<Node>, r1: seq<Node>, r2: seq<Node>)
    requires Reordered(a, s1) && Reordered(b, s2) && AlignedLists(s1, s2, r1, r2)
    ensures AlignedLists(a, b, r1, r2)
  {
    FilledReordered(a, s1, r1, r2);
    FilledReordered(b, s2, r2, r1);
    forall k | 0 <= k < |r1| ensures r1[k] in a || r2[k] in b {
      assert r1[k] in multiset(s1) || r2[k] in multiset(s2);
    }
  }

  method MergeAt(a: seq<Node>, b: seq<Node>) returns (r1: seq<Node>, r2: seq<Node>)
    requires Distinct(Ids(a)) && Distinct(Ids(b))
    ensures AlignedLists(a, b, r1, r2)
  {
    var s1 := SortById(a);
    var s2 := SortById(b);
    r1, r2 := MergeChildren(s1, s2);
    AlignedReordered(a, s1, b, s2, r1, r2);
  }

  ghost predicate Untouched(n: Nodes, m: Nodes, done: set<nat>) {
    m.Keys == n.Keys + done && forall p :: p !in done ==> ChildrenOf(m, p) == ChildrenOf(n, p)
  }

  lemma {:induction false} UntouchedNext(n: Nodes, m: Nodes, done: set<nat>, key: nat, r: seq<Node>)
    requires Untouched(n, m, done)
    ensures Untouched(n, m[key := r], done + {key})
  {
  }

  /** The keys in done have been merged, the others are untouched. */
  ghost predicate MergedAt(n1: Nodes, n2: Nodes, m1: Nodes, m2: Nodes, done: set<nat>) {
    Untouched(n1, m1, done) && Untouched(n2, m2, done) && AllMerged(n1, n2, m1, m2, done)
  }

  ghost predicate AllMerged(n1: Nodes, n2: Nodes, m1: Nodes, m2: Nodes, done: set<nat>) {
    forall p :: p in done ==> MergedKey(n1, n2, m1, m2, p)
  }

  lemma {:induction false} MergedKeyKept(n1: Nodes, n2: Nodes, m1: Nodes, m2: Nodes, key: nat,
                                         r1: seq<Node>, r2: seq<Node>, p: nat)
    requires MergedKey(n1, n2, m1, m2, p) && p != key
    ensures MergedKey(n1, n2, m1[key := r1], m2[key := r2], p)
  {
    assert m1[key := r1][p] == m1[p] && m2[key := r2][p] == m2[p];
  }

  lemma {:induction false} AllMergedNext(n1: Nodes, n2: Nodes, m1: Nodes, m2: Nodes, done: set<nat>, key: nat,
                     r1: seq<Node>, r2: seq<Node>)
    requires AllMerged(n1, n2, m1, m2, done) && key !in done
    requires MergedKey(n1, n2, m1[key := r1], m2[key := r2], key)
    ensures AllMerged(n1, n2, m1[key := r1], m2[key := r2], done + {key})
  {
    forall p | p in done + {key} ensures MergedKey(n1, n2, m1[key := r1], m2[key := r2], p) {
      if p != key {
        MergedKeyKept(n1, n2, m1, m2, key, r1, r2, p);
      }
    }
  }

  lemma {:induction false} MergedKeyHere(n1: Nodes, n2: Nodes, m1: Nodes, m2: Nodes, key: nat,
                                         r1: seq<Node>, r2: seq<Node>)
    requires AlignedLists(ChildrenOf(n1, key), ChildrenOf(n2, key), r1, r2)
    ensures MergedKey(n1, n2, m1[key := r1], m2[key := r2], key)
  {
    assert m1[key := r1][key] == r1 && m2[key := r2][key] == r2;
  }

  lemma {:induction false} MergedAtNext(n1: Nodes, n2: Nodes, m1: Nodes, m2: Nodes, done: set<nat>, key: nat,
                     r1: seq<Node>, r2: seq<Node>)
    requires MergedAt(n1, n2, m1, m2, done) && key !in done
    requires MergedKey(n1, n2, m1[key := r1], m2[key := r2], key)
    ensures MergedAt(n1, n2, m1[key := r1], m2[key := r2], done + {key})
  {
    UntouchedNext(n1, m1, done, key, r1);
    UntouchedNext(n2, m2, done, key, r2);
    AllMergedNext(n1, n2, m1, m2, done, key, r1, r2);
  }

  /** mergeNodes, with the keys visited in any order. */
  method MergeNodes(t1: Tree, t2: Tree)
    requires t1 != t2 && DistinctChildren(t1.nodes) && DistinctChildren(t2.nodes)
    modifies t1`nodes, t2`nodes
    ensures MergedTrees(old(t1.nodes), old(t2.nodes), t1.nodes, t2.nodes)
  {
    ghost var n1, n2 := t1.nodes, t2.nodes;
    var keys := t1.nodes.Keys + t2.nodes.Keys;
    ghost var done := {};
    while keys != {}
      invariant keys !! done && keys + done == n1.Keys + n2.Keys
      invariant MergedAt(n1, n2, t1.nodes, t2.nodes, done)
      decreases keys
    {
      var key :| key in keys;
      MergeKey(t1, t2, n1, n2, done, key);
      keys, done := keys - {key}, done + {key};
    }
    MergedAll(n1, n2, t1.nodes, t2.nodes, done);
  }

  /** The children of one key. */
  method MergeKey(t1: Tree, t2: Tree, ghost n1: Nodes, ghost n2: Nodes, ghost done: set<nat>, key: nat)
    requires t1 != t2 && DistinctChildren(n1) && DistinctChildren(n2)
    requires MergedAt(n1, n2, t1.nodes, t2.nodes, done) && key !in done
    modifies t1`nodes, t2`nodes
    ensures MergedAt(n1, n2, t1.nodes, t2.nodes, done + {key})
  {
    ghost var m1, m2 := t1.nodes, t2.nodes;
    var a, b := ChildrenOf(t1.nodes, key), ChildrenOf(t2.nodes, key);
    assert a == ChildrenOf(n1, key) && b == ChildrenOf(n2, key);
    var r1, r2 := MergeAt(a, b);
    MergedKeyHere(n1, n2, m1, m2, key, r1, r2);
    MergedAtNext(n1, n2, m1, m2, done, key, r1, r2);
    t1.nodes := t1.nodes[key := r1];
    t2.nodes := t2.nodes[key := r2];
  }

  lemma {:induction false} MergedAll(n1: Nodes, n2: Nodes, m1: Nodes, m2: Nodes, done: set<nat>)
    requires MergedAt(n1, n2, m1, m2, done) && done == n1.Keys + n2.Keys
    ensures MergedTrees(n1, n2, m1, m2)
  {
    forall p | p in m1 ensures MergedKey(n1, n2, m1, m2, p) {
      assert p in done;
    }
  }

  // ----- what merging keeps

  /** A node that only the other tree has under p, but that has weight below it here. */
  ghost predicate NoOrphans(n1: Nodes, n2: Nodes, c: nat) {
    forall p, x :: x in Ids(ChildrenOf(n2, p)) && x !in Ids(ChildrenOf(n1, p)) ==>
      SumTotals(ChildrenOf(n1, x), c) == 0
  }

  lemma {:induction false} MergedSums(n1: Nodes, n2: Nodes, m1: Nodes, m2: Nodes, p: nat, c: nat)
    requires MergedTrees(n1, n2, m1, m2)
    ensures SumTotals(ChildrenOf(m1, p), c) == SumTotals(ChildrenOf(n1, p), c)
    ensures SumTotals(ChildrenOf(m2, p), c) == SumTotals(ChildrenOf(n2, p), c)
  {
  }

  lemma {:induction false} EmptyWeighsNothing(n: Node, c: nat)
    ensures Total(EmptyNode(n), c) == 0 && Self(EmptyNode(n), c) == 0
  {
  }

  /** Both root totals survive the merge. */
  lemma {:induction false} MergeKeepsRootTotals(n1: Nodes, n2: Nodes, m1: Nodes, m2: Nodes, c: nat)
    requires MergedTrees(n1, n2, m1, m2)
    ensures SumTotals(ChildrenOf(m1, 0), c) == SumTotals(ChildrenOf(n1, 0), c)
    ensures SumTotals(ChildrenOf(m2, 0), c) == SumTotals(ChildrenOf(n2, 0), c)
  {
    MergedSums(n1, n2, m1, m2, 0, c);
  }

  lemma {:induction false} OwnNodeAdditive(n1: Nodes, n2: Nodes, m1: Nodes, m2: Nodes, c: nat, p: nat, n: Node)
    requires MergedTrees(n1, n2, m1, m2) && AdditiveTree(n1, c) && n in ChildrenOf(n1, p)
    ensures AdditiveNode(Kids(m1), n, c) && n.nodeId in Ids(ChildrenOf(n1, p))
  {
    var i :| 0 <= i < |ChildrenOf(n1, p)| && ChildrenOf(n1, p)[i] == n;
    assert Ids(ChildrenOf(n1, p))[i] == n.nodeId;
    assert AdditiveNode(Kids(n1), n1[p][i], c);
    MergedSums(n1, n2, m1, m2, n.nodeId, c);
  }

  lemma {:induction false} EmptyNodeAdditive(n1: Nodes, n2: Nodes, m1: Nodes, m2: Nodes, c: nat, n: Node)
    requires MergedTrees(n1, n2, m1, m2)
    ensures AdditiveNode(Kids(m1), EmptyNode(n), c) <==> SumTotals(ChildrenOf(n1, n.nodeId), c) == 0
  {
    MergedSums(n1, n2, m1, m2, n.nodeId, c);
    EmptyWeighsNothing(n, c);
  }

  lemma {:induction false} MergedNodeAdditive(n1: Nodes, n2: Nodes, m1: Nodes, m2: Nodes, c: nat, p: nat, k: nat)
    requires MergedTrees(n1, n2, m1, m2) && AdditiveTree(n1, c) && p in m1 && k < |m1[p]|
    ensures AdditiveNode(Kids(m1), m1[p][k], c) <==>
            (m1[p][k].nodeId in Ids(ChildrenOf(n1, p)) || SumTotals(ChildrenOf(n1, m1[p][k].nodeId), c) == 0)
  {
    var n := m1[p][k];
    assert AlignedLists(ChildrenOf(n1, p), ChildrenOf(n2, p), m1[p], m2[p]);
    if n in ChildrenOf(n1, p) {
      OwnNodeAdditive(n1, n2, m1, m2, c, p, n);
    } else {
      EmptyNodeAdditive(n1, n2, m1, m2, c, m2[p][k]);
    }
  }

  /** mergeNodes keeps Total = Self + children in a tree exactly when no node that the tree
      lacks under some parent has weight below it elsewhere in the tree. */
  lemma {:induction false} MergeKeepsAdditive(n1: Nodes, n2: Nodes, m1: Nodes, m2: Nodes, c: nat)
    requires MergedTrees(n1, n2, m1, m2) && AdditiveTree(n1, c)
    ensures AdditiveTree(m1, c) <==> NoOrphans(n1, n2, c)
  {
    if NoOrphans(n1, n2, c) {
      forall p, k | p in m1 && 0 <= k < |m1[p]| ensures AdditiveNode(Kids(m1), m1[p][k], c) {
        MergedNodeAdditive(n1, n2, m1, m2, c, p, k);
        OnlyFromBoth(n1, n2, m1, m2, p, k);
      }
    }
    if AdditiveTree(m1, c) {
      forall p, x | x in Ids(ChildrenOf(n2, p)) && x !in Ids(ChildrenOf(n1, p))
        ensures SumTotals(ChildrenOf(n1, x), c) == 0
      {
        var k := InMerged(n1, n2, m1, m2, p, x);
        MergedNodeAdditive(n1, n2, m1, m2, c, p, k);
      }
    }
  }

  lemma {:induction false} OnlyFromBoth(n1: Nodes, n2: Nodes, m1: Nodes, m2: Nodes, p: nat, k: nat)
    requires MergedTrees(n1, n2, m1, m2) && p in m1 && k < |m1[p]|
    ensures m1[p][k].nodeId in Ids(ChildrenOf(n1, p)) || m1[p][k].nodeId in Ids(ChildrenOf(n2, p))
  {
    assert AlignedLists(ChildrenOf(n1, p), ChildrenOf(n2, p), m1[p], m2[p]);
    var a, b := ChildrenOf(n1, p), ChildrenOf(n2, p);
    if m1[p][k] in a {
      var i :| 0 <= i < |a| && a[i] == m1[p][k];
      assert Ids(a)[i] == m1[p][k].nodeId;
    } else if m2[p][k] in b {
      var i :| 0 <= i < |b| && b[i] == m2[p][k];
      assert Ids(b)[i] == m1[p][k].nodeId;
    }
  }

  lemma {:induction false} InMerged(n1: Nodes, n2: Nodes, m1: Nodes, m2: Nodes, p: nat, x: nat) returns (k: nat)
    requires MergedTrees(n1, n2, m1, m2) && x in Ids(ChildrenOf(n2, p))
    ensures p in m1 && k < |m1[p]| && m1[p][k].nodeId == x
  {
    var b := ChildrenOf(n2, p);
    var i :| 0 <= i < |b| && Ids(b)[i] == x;
    assert AlignedLists(ChildrenOf(n1, p), b, m1[p], m2[p]);
    assert b[i] in m2[p];
    k :| 0 <= k < |m2[p]| && m2[p][k] == b[i];
  }

  /** The merge treats both trees alike. */
  lemma {:induction false} MergedMirror(n1: Nodes, n2: Nodes, m1: Nodes, m2: Nodes)
    requires MergedTrees(n1, n2, m1, m2)
    ensures MergedTrees(n2, n1, m2, m1)
  {
    forall p | p in m2 ensures AlignedLists(ChildrenOf(n2, p), ChildrenOf(n1, p), m2[p], m1[p]) {
      assert AlignedLists(ChildrenOf(n1, p), ChildrenOf(n2, p), m1[p], m2[p]);
    }
  }

  /** Node ids are paths: an id has the same parent in both trees, it is not the root's, and
      only ids that occur in a tree have children there. */
  ghost predicate PathIds(n1: Nodes, n2: Nodes) {
    && (forall p, q, x :: x in Ids(ChildrenOf(n1, p)) && x in Ids(ChildrenOf(n2, q)) ==> p == q)
    && (forall p :: 0 !in Ids(ChildrenOf(n2, p)))
    && (forall x :: x != 0 && ChildrenOf(n1, x) != [] ==> exists p :: x in Ids(ChildrenOf(n1, p)))
  }

  /** Path ids rule orphans out. */
  lemma {:induction false} PathIdsNoOrphans(n1: Nodes, n2: Nodes, c: nat)
    requires PathIds(n1, n2)
    ensures NoOrphans(n1, n2, c)
  {
    forall p, x | x in Ids(ChildrenOf(n2, p)) && x !in Ids(ChildrenOf(n1, p))
      ensures SumTotals(ChildrenOf(n1, x), c) == 0
    {
      if ChildrenOf(n1, x) != [] {
        assert false;
      }
    }
  }

  /** Trees that MergeTrie builds from tries in which ids have the same parents. */
  lemma {:induction false} SameShapePathIds(n1: Nodes, n2: Nodes, up: nat -> nat)
    requires Shaped(n1, up) && Shaped(n2, up)
    ensures PathIds(n1, n2)
  {
    forall p, q, x | x in Ids(ChildrenOf(n1, p)) && x in Ids(ChildrenOf(n2, q)) ensures p == q {
      assert Occurs(n1, p, x) && Occurs(n2, q, x);
    }
    forall p ensures 0 !in Ids(ChildrenOf(n2, p)) {
      assert Occurs(n2, p, 0) ==> false;
    }
    forall x | x != 0 && ChildrenOf(n1, x) != [] ensures exists p :: x in Ids(ChildrenOf(n1, p)) {
      assert Occurs(n1, up(x), x);
    }
  }

  /** Without path ids the invariant can break: the right tree has node 2 under the root, the
      left tree has it further down with weight below it. */
  lemma {:induction false} OrphanExample() returns (n1: Nodes, n2: Nodes)
    ensures AdditiveTree(n1, 0) && AdditiveTree(n2, 0) && !NoOrphans(n1, n2, 0)
  {
    var a, b, d := Node(1, 1, [0], [5]), Node(2, 2, [0], [5]), Node(3, 3, [5], [5]);
    n1 := map[0 := [a], 1 := [b], 2 := [d]];
    n2 := map[0 := [Node(2, 2, [3], [3])]];
    assert SumTotals([b], 0) == 5 && SumTotals([d], 0) == 5 by {
      SumAppend([], b, 0);
      SumAppend([], d, 0);
      assert [] + [b] == [b] && [] + [d] == [d];
    }
    assert AdditiveNode(Kids(n1), a, 0) && AdditiveNode(Kids(n1), b, 0) && AdditiveNode(Kids(n1), d, 0);
    assert Ids(ChildrenOf(n2, 0)) == [2] && Ids(ChildrenOf(n1, 0)) == [1];
    assert 2 in Ids(ChildrenOf(n2, 0)) && 2 !in Ids(ChildrenOf(n1, 0)) && ChildrenOf(n1, 2) == [d];
  }

  // ----- the function of an aligned node

  predicate Blank(n: Node) {
    && (forall i :: 0 <= i < |n.self| ==> n.self[i] == 0)
    && (forall i :: 0 <= i < |n.total| ==> n.total[i] == 0)
  }

  /** m stands for n: the node itself, or a blank one of the same id, function and width. */
  predicate StandsFor(m: Node, n: Node, own: bool) {
    if own then m == n
    else m.nodeId == n.nodeId && m.fnId == n.fnId && |m.self| == |n.self| && |m.total| == |n.total| && Blank(m)
  }

  lemma {:induction false} FilledStands(a: seq<Node>, r: seq<Node>, b: seq<Node>, other: seq<Node>, k: nat)
    returns (n: Node)
    requires Filled(a, r, other) && k < |r| && (r[k] in a || other[k] in b)
    ensures var own := r[k].nodeId in Ids(a);
            n in (if own then a else b) && StandsFor(r[k], n, own)
  {
    if r[k] in a {
      n := r[k];
      var i :| 0 <= i < |a| && a[i] == n;
      assert Ids(a)[i] == n.nodeId;
    } else {
      n := other[k];
    }
  }

  /** Aligned nodes carry the function of the node they stand for: their own tree's, where it has
      one with this id under p, and the other tree's where it has none. */
  lemma {:induction false} MergedFunction(n1: Nodes, n2: Nodes, m1: Nodes, m2: Nodes, p: nat, k: nat)
    returns (n: Node, m: Node)
    requires MergedTrees(n1, n2, m1, m2) && p in m1 && k < |m1[p]|
    ensures p in m2 && k < |m2[p]| && m1[p][k].nodeId == m2[p][k].nodeId
    ensures var own := m1[p][k].nodeId in Ids(ChildrenOf(n1, p));
            n in ChildrenOf(if own then n1 else n2, p) && StandsFor(m1[p][k], n, own)
    ensures var own := m2[p][k].nodeId in Ids(ChildrenOf(n2, p));
            m in ChildrenOf(if own then n2 else n1, p) && StandsFor(m2[p][k], m, own)
  {
    assert MergedKey(n1, n2, m1, m2, p);
    n := FilledStands(ChildrenOf(n1, p), m1[p], ChildrenOf(n2, p), m2[p], k);
    m := FilledStands(ChildrenOf(n2, p), m2[p], ChildrenOf(n1, p), m1[p], k);
  }
}
