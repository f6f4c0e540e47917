/** Options and sequence helpers shared by every module. The recursive helpers peel
    the LAST element, so that they follow loops that walk a slice left to right. */
module Sequences {

  datatype Option<+T> = None | Some(value: T)

  ghost predicate Distinct(ids: seq<nat>) {
    forall i, j :: 0 <= i < j < |ids| ==> ids[i] != ids[j]
  }

  /** Applies f to every element. */
  function MapSeq<A, B>(f: A -> B, s: seq<A>): (r: seq<B>)
    ensures |r| == |s|
    ensures forall i :: 0 <= i < |s| ==> r[i] == f(s[i])
  {
    seq(|s|, i requires 0 <= i < |s| => f(s[i]))
  }

  /** Rewrites the elements on which f is defined and drops the others, in order. */
  function KeepMap<A, B>(f: A -> Option<B>, s: seq<A>): (r: seq<B>)
    ensures |r| <= |s|
  {
    if s == [] then []
    else
      var rest := KeepMap(f, s[..|s| - 1]);
      match f(s[|s| - 1])
      case Some(b) => rest + [b]
      case None => rest
  }

  /** Sum of f over a sequence. */
  function SumBy<A>(f: A -> int, s: seq<A>): int {
    if s == [] then 0 else SumBy(f, s[..|s| - 1]) + f(s[|s| - 1])
  }

  /** One-based position of the last occurrence of id, 0 when it does not occur: what a
      Go map filled by t[ids[i]] = i + 1 answers, missing keys reading as 0. */
  function LastPos(ids: seq<nat>, id: nat): (r: nat)
    ensures r <= |ids|
    ensures r == 0 <==> id !in ids
    ensures r > 0 ==> ids[r - 1] == id && forall k :: r <= k < |ids| ==> ids[k] != id
  {
    if ids == [] then 0
    else if ids[|ids| - 1] == id then |ids|
    else LastPos(ids[..|ids| - 1], id)
  }

  lemma {:induction false} LastPosAppend(ids: seq<nat>, x: nat, id: nat)
    ensures LastPos(ids + [x], id) == if x == id then |ids| + 1 else LastPos(ids, id)
  {
    assert (ids + [x])[..|ids|] == ids;
  }

  lemma {:induction false} KeepMapAll<A>(f: A -> Option<A>, s: seq<A>)
    requires forall i :: 0 <= i < |s| ==> f(s[i]) == Some(s[i])
    ensures KeepMap(f, s) == s
  {
    if s != [] {
      KeepMapAll(f, s[..|s| - 1]);
      assert s == s[..|s| - 1] + [s[|s| - 1]];
    }
  }

  /** Every element that KeepMap returns is the image of an element it was given. */
  lemma {:induction false} KeepMapFrom<A, B>(f: A -> Option<B>, s: seq<A>, k: nat)
    requires k < |KeepMap(f, s)|
    ensures exists i :: 0 <= i < |s| && f(s[i]) == Some(KeepMap(f, s)[k])
  {
    var t := s[..|s| - 1];
    if k < |KeepMap(f, t)| {
      KeepMapFrom(f, t, k);
      var i :| 0 <= i < |t| && f(t[i]) == Some(KeepMap(f, t)[k]);
      assert f(s[i]) == Some(KeepMap(f, s)[k]);
    } else {
      assert f(s[|s| - 1]) == Some(KeepMap(f, s)[k]);
    }
  }

  lemma {:induction false} SumByConcat<A>(f: A -> int, s: seq<A>, t: seq<A>)
    ensures SumBy(f, s + t) == SumBy(f, s) + SumBy(f, t)
  {
    if t == [] {
      assert s + t == s;
    } else {
      assert (s + t)[..|s + t| - 1] == s + t[..|t| - 1];
      SumByConcat(f, s, t[..|t| - 1]);
    }
  }

  lemma {:induction false} SumByUpdate<A>(f: A -> int, s: seq<A>, k: nat, x: A)
    requires k < |s|
    ensures SumBy(f, s[k := x]) == SumBy(f, s) - f(s[k]) + f(x)
  {
    var n := |s| - 1;
    if k == n {
      assert s[k := x][..n] == s[..n];
    } else {
      assert s[k := x][..n] == s[..n][k := x];
      SumByUpdate(f, s[..n], k, x);
    }
  }

  lemma {:induction false} TakeOut<A>(f: A -> int, t: seq<A>, k: nat)
    requires k < |t|
    ensures SumBy(f, t) == SumBy(f, t[..k] + t[k + 1..]) + f(t[k])
    ensures multiset(t) == multiset(t[..k] + t[k + 1..]) + multiset{t[k]}
  {
    var a, b := t[..k], t[k + 1..];
    assert t == a + ([t[k]] + b) && [t[k]][..0] == [];
    SumByConcat(f, a, [t[k]] + b);
    SumByConcat(f, [t[k]], b);
    SumByConcat(f, a, b);
  }

  /** A sum does not depend on the order of its terms. */
  lemma {:induction false} SumByPermutation<A>(f: A -> int, s: seq<A>, t: seq<A>)
    requires multiset(s) == multiset(t)
    ensures SumBy(f, s) == SumBy(f, t)
    decreases |s|
  {
    if s == [] {
      assert |multiset(t)| == |t| == 0;
    } else {
      var n := |s| - 1;
      assert s[n] in multiset(t);
      var k :| 0 <= k < |t| && t[k] == s[n];
      TakeOut(f, s, n);
      TakeOut(f, t, k);
      var u := t[..k] + t[k + 1..];
      assert s[..n] + s[n + 1..] == s[..n];
      assert multiset(s[..n]) == multiset(s) - multiset{s[n]} == multiset(u);
      SumByPermutation(f, s[..n], u);
    }
  }

  lemma {:induction false} SubsetSize<T>(a: set<T>, b: set<T>)
    requires a <= b
    ensures |a| <= |b| && (|a| == |b| ==> a == b)
  {
    assert b == a + (b - a);
    assert |b| == |a| + |b - a|;
  }
}
