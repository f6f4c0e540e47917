/** BuildSnapshot: the shards of a cluster from its replica rows, and round robin over the
    replicas of a shard. */
module ShardSnapshot {
  import opened Sequences
  import opened Arithmetic

  datatype Replica = Replica(shardNum: int, replicaNum: int, hostName: string, hostAddr: string, port: nat)

  datatype Shard = Shard(shardNum: int, replicas: seq<Replica>)

  datatype Snapshot = Snapshot(clusterName: string, shardCount: int, shards: seq<Shard>)

  datatype Problem =
    | NoReplicas
    | InvalidShardNum(num: int)
    | NotContiguous
    | MissingShard(num: int)
    | NoWriteReplica(num: int)

  datatype Outcome = Built(snapshot: Snapshot) | Failed(problem: Problem)

  /** The write addresses; None stands for the nil map, which allows every replica. The way an
      address is normalised is a parameter. */
  datatype WriteSet = WriteSet(allowed: Option<set<string>>, normalize: string -> string)

  predicate Eligible(w: WriteSet, r: Replica) {
    w.allowed.None? || w.normalize(r.hostAddr) in w.allowed.value || w.normalize(r.hostName) in w.allowed.value
  }

  // ----- order of replicas

  predicate StringLess(a: string, b: string) {
    if b == "" then false
    else if a == "" then true
    else a[0] < b[0] || (a[0] == b[0] && StringLess(a[1..], b[1..]))
  }

  predicate Before(a: Replica, b: Replica) {
    a.replicaNum < b.replicaNum || (a.replicaNum == b.replicaNum && StringLess(a.hostAddr, b.hostAddr))
  }

  ghost predicate Sorted(rs: seq<Replica>) {
    forall i, j :: 0 <= i < j < |rs| ==> !Before(rs[j], rs[i])
  }

  lemma {:induction false} StringLessTransitive(a: string, b: string, c: string)
    requires StringLess(a, b) && StringLess(b, c)
    ensures StringLess(a, c)
  {
    if a != "" && a[0] == b[0] && b[0] == c[0] {
      StringLessTransitive(a[1..], b[1..], c[1..]);
    }
  }

  lemma {:induction false} StringLessIrreflexive(a: string)
    ensures !StringLess(a, a)
  {
    if a != "" {
      StringLessIrreflexive(a[1..]);
    }
  }

  lemma {:induction false} BeforeTransitive(a: Replica, b: Replica, c: Replica)
    requires Before(a, b) && Before(b, c)
    ensures Before(a, c)
  {
    if a.replicaNum == b.replicaNum == c.replicaNum {
      StringLessTransitive(a.hostAddr, b.hostAddr, c.hostAddr);
    }
  }

  method Insert(rs: seq<Replica>, x: Replica) returns (out: seq<Replica>)
    requires Sorted(rs)
    ensures Sorted(out) && multiset(out) == multiset(rs) + multiset{x}
  {
    var i := 0;
    while i < |rs| && !Before(x, rs[i])
      invariant i <= |rs| && forall k :: 0 <= k < i ==> !Before(x, rs[k])
    {
      i := i + 1;
    }
    out := rs[..i] + [x] + rs[i..];
    assert rs == rs[..i] + rs[i..];
    InsertedSorted(rs, i, x);
  }

  lemma {:induction false} InsertedSorted(rs: seq<Replica>, i: nat, x: Replica)
    requires Sorted(rs) && i <= |rs| && (i < |rs| ==> Before(x, rs[i]))
    requires forall k :: 0 <= k < i ==> !Before(x, rs[k])
    ensures Sorted(rs[..i] + [x] + rs[i..])
  {
    forall k | i <= k < |rs| ensures !Before(rs[k], x) {
      if Before(rs[k], x) {
        BeforeTransitive(rs[k], x, rs[i]);
        StringLessIrreflexive(rs[i].hostAddr);
      }
    }
  }

  /** sort.Slice by replica number, then address. */
  method SortReplicas(rs: seq<Replica>) returns (out: seq<Replica>)
    ensures Sorted(out) && multiset(out) == multiset(rs)
  {
    out := [];
    for i := 0 to |rs|
      invariant Sorted(out) && multiset(out) == multiset(rs[..i])
    {
      assert rs[..i + 1] == rs[..i] + [rs[i]];
      out := Insert(out, rs[i]);
    }
    assert rs[..|rs|] == rs;
  }

  // ----- specification

  /** The replicas of a shard, in the order they were listed. */
  function OfShard(rs: seq<Replica>, num: int): seq<Replica> {
    if rs == [] then []
    else OfShard(rs[..|rs| - 1], num) + if rs[|rs| - 1].shardNum == num then [rs[|rs| - 1]] else []
  }

  function EligibleOf(w: WriteSet, rs: seq<Replica>): seq<Replica> {
    if rs == [] then []
    else EligibleOf(w, rs[..|rs| - 1]) + if Eligible(w, rs[|rs| - 1]) then [rs[|rs| - 1]] else []
  }

  function MaxShard(rs: seq<Replica>): (m: int)
    ensures m >= 0
  {
    if rs == [] then 0
    else
      var m := MaxShard(rs[..|rs| - 1]);
      if rs[|rs| - 1].shardNum > m then rs[|rs| - 1].shardNum else m
  }

  /** It bounds every shard number, and some replica has it. */
  lemma {:induction false} MaxShardIsLargest(rs: seq<Replica>)
    ensures forall i :: 0 <= i < |rs| ==> rs[i].shardNum <= MaxShard(rs)
    ensures MaxShard(rs) == 0 || exists i :: 0 <= i < |rs| && rs[i].shardNum == MaxShard(rs)
  {
    if rs != [] {
      var n := |rs| - 1;
      MaxShardIsLargest(rs[..n]);
      forall i | 0 <= i < n ensures rs[i].shardNum <= MaxShard(rs) {
        assert rs[..n][i] == rs[i];
      }
      if MaxShard(rs) != rs[n].shardNum && MaxShard(rs) != 0 {
        var i :| 0 <= i < n && rs[..n][i].shardNum == MaxShard(rs[..n]);
        assert rs[i].shardNum == MaxShard(rs);
      }
    }
  }

  predicate HasEligible(w: WriteSet, rs: seq<Replica>, num: int) {
    EligibleOf(w, OfShard(rs, num)) != []
  }

  ghost predicate ShardOk(s: Shard, w: WriteSet, rs: seq<Replica>, num: int) {
    && s.shardNum == num && s.replicas != [] && Sorted(s.replicas)
    && multiset(s.replicas) == multiset(EligibleOf(w, OfShard(rs, num)))
  }

  ghost predicate ShardsOk(shards: seq<Shard>, w: WriteSet, rs: seq<Replica>) {
    forall i :: 0 <= i < |shards| ==> ShardOk(shards[i], w, rs, i + 1)
  }

  lemma {:induction false} ShardsMore(shards: seq<Shard>, w: WriteSet, rs: seq<Replica>, s: Shard)
    requires ShardsOk(shards, w, rs) && ShardOk(s, w, rs, |shards| + 1)
    ensures ShardsOk(shards + [s], w, rs)
  {
  }

  /** Shards 1 to N, each with its own eligible replicas, in order, and never none. */
  ghost predicate SnapshotOk(s: Snapshot, name: string, w: WriteSet, rs: seq<Replica>) {
    && s.clusterName == name && s.shardCount == |s.shards| == MaxShard(rs) && s.shardCount >= 1
    && ShardsOk(s.shards, w, rs)
  }

  /** When a snapshot can be built: every shard from 1 to the largest has an eligible replica. */
  ghost predicate Buildable(w: WriteSet, rs: seq<Replica>) {
    && rs != [] && (forall i :: 0 <= i < |rs| ==> rs[i].shardNum >= 1)
    && forall num :: 1 <= num <= MaxShard(rs) ==> HasEligible(w, rs, num)
  }

  // ----- the pigeonhole

  ghost function UpTo(n: nat): (r: set<int>)
    ensures forall k :: k in r <==> 1 <= k <= n
  {
    if n == 0 then {} else UpTo(n - 1) + {n}
  }

  lemma {:induction false} UpToSize(n: nat)
    ensures |UpTo(n)| == n
  {
    if n > 0 {
      UpToSize(n - 1);
      assert UpTo(n) == UpTo(n - 1) + {n};
    }
  }

  /** n distinct shard numbers between 1 and n are all of them: no shard can be missing. */
  lemma {:induction false} Pigeonhole(keys: set<int>, n: nat)
    requires forall k :: k in keys ==> 1 <= k <= n
    ensures |keys| == n <==> keys == UpTo(n)
  {
    UpToSize(n);
    SubsetSize(keys, UpTo(n));
  }

  // ----- the loops

  function ShardNums(rs: seq<Replica>): set<int> {
    if rs == [] then {} else ShardNums(rs[..|rs| - 1]) + {rs[|rs| - 1].shardNum}
  }

  lemma {:induction false} OfShardEmpty(rs: seq<Replica>, num: int)
    ensures OfShard(rs, num) == [] <==> num !in ShardNums(rs)
  {
    if rs != [] {
      OfShardEmpty(rs[..|rs| - 1], num);
    }
  }

  lemma {:induction false} ShardNumsBounded(rs: seq<Replica>)
    requires forall i :: 0 <= i < |rs| ==> rs[i].shardNum >= 1
    ensures forall k :: k in ShardNums(rs) ==> 1 <= k <= MaxShard(rs)
  {
    if rs != [] {
      ShardNumsBounded(rs[..|rs| - 1]);
    }
  }

  predicate GroupIs(byShard: map<int, seq<Replica>>, rs: seq<Replica>, num: int) {
    num in byShard && byShard[num] == OfShard(rs, num) && byShard[num] != []
  }

  /** The map from shard number to rows. */
  ghost predicate Grouped(byShard: map<int, seq<Replica>>, rs: seq<Replica>) {
    && byShard.Keys == ShardNums(rs)
    && forall num :: num in byShard ==> GroupIs(byShard, rs, num)
  }

  /** Groups the rows by shard; fails on the first shard number below 1. */
  method GroupByShard(rs: seq<Replica>) returns (bad: Option<int>, byShard: map<int, seq<Replica>>, maxShard: int)
    ensures bad.None? <==> forall i :: 0 <= i < |rs| ==> rs[i].shardNum >= 1
    ensures bad.None? ==> Grouped(byShard, rs) && maxShard == MaxShard(rs)
  {
    byShard, maxShard := map[], 0;
    for i := 0 to |rs|
      invariant forall k :: 0 <= k < i ==> rs[k].shardNum >= 1
      invariant Grouped(byShard, rs[..i]) && maxShard == MaxShard(rs[..i])
    {
      var r := rs[i];
      if r.shardNum < 1 {
        return Some(r.shardNum), byShard, maxShard;
      }
      var group := if r.shardNum in byShard then byShard[r.shardNum] else [];
      GroupStep(byShard, rs, i, group);
      byShard := byShard[r.shardNum := group + [r]];
      if r.shardNum > maxShard {
        maxShard := r.shardNum;
      }
    }
    assert rs[..|rs|] == rs;
    bad := None;
  }

  lemma {:induction false} GroupStep(byShard: map<int, seq<Replica>>, rs: seq<Replica>, i: nat, group: seq<Replica>)
    requires i < |rs| && Grouped(byShard, rs[..i])
    requires group == if rs[i].shardNum in byShard then byShard[rs[i].shardNum] else []
    ensures Grouped(byShard[rs[i].shardNum := group + [rs[i]]], rs[..i + 1])
    ensures MaxShard(rs[..i + 1]) == if rs[i].shardNum > MaxShard(rs[..i]) then rs[i].shardNum else MaxShard(rs[..i])
  {
    var num := rs[i].shardNum;
    assert rs[..i + 1][..i] == rs[..i];
    OfShardEmpty(rs[..i], num);
    assert num in byShard ==> GroupIs(byShard, rs[..i], num);
    var next := byShard[num := group + [rs[i]]];
    forall n | n in next ensures GroupIs(next, rs[..i + 1], n) {
      if n != num {
        assert GroupIs(byShard, rs[..i], n);
      }
    }
  }

  method FilterEligible(w: WriteSet, rs: seq<Replica>) returns (out: seq<Replica>)
    ensures out == EligibleOf(w, rs)
  {
    out := [];
    for i := 0 to |rs|
      invariant out == EligibleOf(w, rs[..i])
    {
      assert rs[..i + 1][..i] == rs[..i];
      if Eligible(w, rs[i]) {
        out := out + [rs[i]];
      }
    }
    assert rs[..|rs|] == rs;
  }

  lemma {:induction false} AllEligible(w: WriteSet, rs: seq<Replica>)
    requires w.allowed.None?
    ensures EligibleOf(w, rs) == rs
  {
    if rs != [] {
      AllEligible(w, rs[..|rs| - 1]);
      assert rs == rs[..|rs| - 1] + [rs[|rs| - 1]];
    }
  }

  /** Builds a snapshot exactly when every shard has an eligible replica; the missing-shard
      error cannot happen. */
  method BuildSnapshot(name: string, rs: seq<Replica>, w: WriteSet) returns (out: Outcome)
    ensures out.Built? <==> Buildable(w, rs)
    ensures out.Built? ==> SnapshotOk(out.snapshot, name, w, rs)
    ensures out.Failed? ==> !out.problem.MissingShard?
  {
    if |rs| == 0 {
      return Failed(NoReplicas);
    }
    var bad, byShard, maxShard := GroupByShard(rs);
    if bad.Some? {
      return Failed(InvalidShardNum(bad.value));
    }
    ShardNumsBounded(rs);
    Pigeonhole(byShard.Keys, maxShard);
    if |byShard| != maxShard {
      NotEveryShard(w, rs);
      return Failed(NotContiguous);
    }
    assert forall num :: 1 <= num <= maxShard ==> num in byShard;
    var missing, shards := BuildShards(w, rs, byShard, maxShard);
    if missing.Some? {
      return Failed(NoWriteReplica(missing.value));
    }
    MaxAtLeastOne(rs);
    out := Built(Snapshot(name, maxShard, shards));
  }

  /** The replicas of one shard, filtered and sorted; None when no replica may be written to. */
  method BuildShard(w: WriteSet, rs: seq<Replica>, num: int, group: seq<Replica>) returns (shard: Option<Shard>)
    requires group == OfShard(rs, num) && group != []
    ensures shard.None? <==> !HasEligible(w, rs, num)
    ensures shard.Some? ==> ShardOk(shard.value, w, rs, num)
  {
    var candidates := group;
    if w.allowed.Some? {
      candidates := FilterEligible(w, candidates);
      if candidates == [] {
        return None;
      }
    } else {
      AllEligible(w, candidates);
    }
    var sorted := SortReplicas(candidates);
    assert |multiset(sorted)| == |multiset(candidates)|;
    shard := Some(Shard(num, sorted));
  }

  method BuildShards(w: WriteSet, rs: seq<Replica>, byShard: map<int, seq<Replica>>, maxShard: int)
    returns (missing: Option<int>, shards: seq<Shard>)
    requires maxShard >= 0 && forall num :: 1 <= num <= maxShard ==> GroupIs(byShard, rs, num)
    ensures missing.None? <==> forall num :: 1 <= num <= maxShard ==> HasEligible(w, rs, num)
    ensures missing.None? ==> |shards| == maxShard && ShardsOk(shards, w, rs)
  {
    shards := [];
    for num := 1 to maxShard + 1
      invariant |shards| == num - 1
      invariant forall k :: 1 <= k < num ==> HasEligible(w, rs, k)
      invariant ShardsOk(shards, w, rs)
    {
      assert GroupIs(byShard, rs, num);
      var shard := BuildShard(w, rs, num, byShard[num]);
      if shard.None? {
        return Some(num), shards;
      }
      ShardsMore(shards, w, rs, shard.value);
      shards := shards + [shard.value];
    }
    missing := None;
  }

  lemma {:induction false} MaxAtLeastOne(rs: seq<Replica>)
    requires rs != [] && forall i :: 0 <= i < |rs| ==> rs[i].shardNum >= 1
    ensures MaxShard(rs) >= 1
  {
    assert rs[|rs| - 1].shardNum >= 1;
  }

  lemma {:induction false} NotEveryShard(w: WriteSet, rs: seq<Replica>)
    requires ShardNums(rs) != UpTo(MaxShard(rs)) && forall i :: 0 <= i < |rs| ==> rs[i].shardNum >= 1
    ensures !Buildable(w, rs)
  {
    ShardNumsBounded(rs);
    var num :| num in UpTo(MaxShard(rs)) && num !in ShardNums(rs);
    OfShardEmpty(rs, num);
    assert !HasEligible(w, rs, num);
  }

  // ----- round robin

  const COUNTER_MODULUS: nat := 0x1_0000_0000

  /** A single replica does not touch the counter. */
  function NextCounter(replicas: nat, counter: nat): (r: nat)
    ensures counter < COUNTER_MODULUS ==> r < COUNTER_MODULUS
  {
    if replicas == 1 then counter else (counter + 1) % COUNTER_MODULUS
  }

  /** pickTS and pickSpl: the replica to use and the shard's counter afterwards. */
  function Pick(replicas: nat, counter: nat): (r: (nat, nat))
    requires replicas > 0 && counter < COUNTER_MODULUS
    ensures r.0 < replicas && r.1 < COUNTER_MODULUS
  {
    (if replicas == 1 then 0 else counter % replicas, NextCounter(replicas, counter))
  }

  /** The counter after n picks. */
  function CounterAfter(replicas: nat, counter: nat, n: nat): (c: nat)
    requires counter < COUNTER_MODULUS
    ensures c < COUNTER_MODULUS
  {
    if n == 0 then counter else NextCounter(replicas, CounterAfter(replicas, counter, n - 1))
  }

  function PickAfter(replicas: nat, counter: nat, n: nat): nat
    requires replicas > 0 && counter < COUNTER_MODULUS
  {
    Pick(replicas, CounterAfter(replicas, counter, n)).0
  }

  lemma {:induction false} CounterCounts(replicas: nat, counter: nat, n: nat)
    requires replicas > 1 && counter + n < COUNTER_MODULUS
    ensures CounterAfter(replicas, counter, n) == counter + n
  {
    if n > 0 {
      CounterCounts(replicas, counter, n - 1);
    }
  }

  /** The pick k places on, in terms of the first. */
  function Shifted(c: nat, k: nat, replicas: nat): int {
    if c + k < replicas then c + k else c + k - replicas
  }

  lemma {:induction false} ShiftedRemainder(m: nat, q: nat, c: nat, x: nat, k: nat)
    requires c < m && k < m && x == m * q + c
    ensures (x + k) % m == Shifted(c, k, m)
  {
    if c + k < m {
      Euclid(x + k, m, q, c + k);
    } else {
      assert m * (q + 1) == m * q + m;
      Euclid(x + k, m, q + 1, c + k - m);
    }
  }

  lemma {:induction false} RemainderAfter(m: nat, x: nat, k: nat)
    requires m > 0 && k < m
    ensures (x + k) % m == Shifted(x % m, k, m)
  {
    var q, c := x / m, x % m;
    assert x == m * q + c;
    ShiftedRemainder(m, q, c, x, k);
  }

  lemma {:induction false} PickFormula(replicas: nat, counter: nat, k: nat)
    requires replicas > 1 && k < replicas && counter + k < COUNTER_MODULUS
    ensures PickAfter(replicas, counter, k) == Shifted(counter % replicas, k, replicas)
  {
    CounterCounts(replicas, counter, k);
    RemainderAfter(replicas, counter, k);
  }

  /** Fair between wraps of the counter: among any `replicas` consecutive picks every replica
      is chosen exactly once. */
  lemma {:induction false} RoundRobinFair(replicas: nat, counter: nat, wanted: nat) returns (n: nat)
    requires wanted < replicas && counter + replicas <= COUNTER_MODULUS
    ensures n < replicas && PickAfter(replicas, counter, n) == wanted
    ensures forall k: nat :: k < replicas && PickAfter(replicas, counter, k) == wanted ==> k == n
  {
    if replicas == 1 {
      n := 0;
    } else {
      var c := counter % replicas;
      n := if wanted >= c then wanted - c else wanted + replicas - c;
      forall k: nat | k < replicas ensures PickAfter(replicas, counter, k) == Shifted(c, k, replicas) {
        PickFormula(replicas, counter, k);
      }
    }
  }
}
