/** PartitionTimeSeries and PartitionTimeSamples: a request held as parallel columns is split
    by fingerprint into one request per shard. */
module Partition {
  import opened Sequences
  import opened Arithmetic

  function ShardIndex(fingerprint: nat, shardCount: int): (s: nat)
    ensures s < if shardCount < 1 then 1 else shardCount
  {
    if shardCount <= 1 then 0 else fingerprint % shardCount
  }

  // ----- rows of parallel columns; a column may be shorter than the fingerprints

  datatype SeriesData = SeriesData(fingerprint: seq<nat>, date: seq<int>, labels: seq<string>, ttlDays: seq<nat>,
                                   typ: seq<nat>, metadata: seq<string>, meta: string, oid: string, size: int)

  datatype SamplesData = SamplesData(fingerprint: seq<nat>, timestampNs: seq<int>, message: seq<string>,
                                     value: seq<real>, ttlDays: seq<nat>, typ: seq<nat>, oid: string, size: int)

  datatype SeriesRow = SeriesRow(fingerprint: nat, date: Option<int>, labels: Option<string>, ttlDays: Option<nat>,
                                 typ: Option<nat>, metadata: Option<string>)

  datatype SamplesRow = SamplesRow(fingerprint: nat, timestampNs: Option<int>, message: Option<string>,
                                   value: Option<real>, ttlDays: Option<nat>, typ: Option<nat>)

  function At<T>(col: seq<T>, i: nat): Option<T> {
    if i < |col| then Some(col[i]) else None
  }

  function SeriesAt(d: SeriesData, i: nat): SeriesRow
    requires i < |d.fingerprint|
  {
    SeriesRow(d.fingerprint[i], At(d.date, i), At(d.labels, i), At(d.ttlDays, i), At(d.typ, i), At(d.metadata, i))
  }

  function SamplesAt(d: SamplesData, i: nat): SamplesRow
    requires i < |d.fingerprint|
  {
    SamplesRow(d.fingerprint[i], At(d.timestampNs, i), At(d.message, i), At(d.value, i), At(d.ttlDays, i), At(d.typ, i))
  }

  function SeriesRows(d: SeriesData): (r: seq<SeriesRow>)
    ensures |r| == |d.fingerprint|
    ensures forall i {:trigger r[i]} :: 0 <= i < |r| ==> r[i] == SeriesAt(d, i)
  {
    seq(|d.fingerprint|, i requires 0 <= i < |d.fingerprint| => SeriesAt(d, i))
  }

  function SamplesRows(d: SamplesData): (r: seq<SamplesRow>)
    ensures |r| == |d.fingerprint|
    ensures forall i {:trigger r[i]} :: 0 <= i < |r| ==> r[i] == SamplesAt(d, i)
  {
    seq(|d.fingerprint|, i requires 0 <= i < |d.fingerprint| => SamplesAt(d, i))
  }

  function SeriesKey(): SeriesRow -> nat {
    (r: SeriesRow) => r.fingerprint
  }

  function SamplesKey(): SamplesRow -> nat {
    (r: SamplesRow) => r.fingerprint
  }

  function Text(s: Option<string>): string {
    if s.Some? then s.value else ""
  }

  /** The accounting formulas of the two requests. */
  function SeriesSize(): SeriesRow -> int {
    (r: SeriesRow) => 14 + |Text(r.labels)| + |Text(r.metadata)|
  }

  function SamplesSize(): SamplesRow -> int {
    (r: SamplesRow) => |Text(r.message)| + 26
  }

  // ----- the split, stated on rows

  /** The rows that belong to shard s, in their order. */
  function RowsFor<R>(rows: seq<R>, key: R -> nat, s: nat, n: int): seq<R> {
    if rows == [] then []
    else
      var rest := RowsFor(rows[..|rows| - 1], key, s, n);
      if ShardIndex(key(rows[|rows| - 1]), n) == s then rest + [rows[|rows| - 1]] else rest
  }

  /** The parts of shards 0 to m - 1 one after the other. */
  function Parts<R>(rows: seq<R>, key: R -> nat, n: int, m: nat): seq<R> {
    if m == 0 then [] else Parts(rows, key, n, m - 1) + RowsFor(rows, key, m - 1, n)
  }

  function Shards(n: int): (m: nat)
    ensures m >= 1
  {
    if n < 1 then 1 else n
  }

  lemma {:induction false} RowsForAppend<R>(rows: seq<R>, x: R, key: R -> nat, s: nat, n: int)
    ensures multiset(RowsFor(rows + [x], key, s, n))
            == multiset(RowsFor(rows, key, s, n)) + if ShardIndex(key(x), n) == s then multiset{x} else multiset{}
  {
    assert (rows + [x])[..|rows|] == rows;
  }

  lemma {:induction false} PartsAppend<R>(rows: seq<R>, x: R, key: R -> nat, n: int, m: nat)
    ensures multiset(Parts(rows + [x], key, n, m))
            == multiset(Parts(rows, key, n, m)) + if ShardIndex(key(x), n) < m then multiset{x} else multiset{}
  {
    if m > 0 {
      PartsAppend(rows, x, key, n, m - 1);
      RowsForAppend(rows, x, key, m - 1, n);
    }
  }

  /** The split loses no row and duplicates none. */
  lemma {:induction false} SplitLossless<R>(rows: seq<R>, key: R -> nat, n: int)
    ensures multiset(Parts(rows, key, n, Shards(n))) == multiset(rows)
  {
    if rows == [] {
      EmptyParts(key, n, Shards(n));
    } else {
      var k := |rows| - 1;
      SplitLossless(rows[..k], key, n);
      PartsAppend(rows[..k], rows[k], key, n, Shards(n));
      assert rows == rows[..k] + [rows[k]];
    }
  }

  lemma {:induction false} EmptyParts<R>(key: R -> nat, n: int, m: nat)
    ensures Parts([], key, n, m) == []
  {
    if m > 0 {
      EmptyParts(key, n, m - 1);
    }
  }

  /** A part holds only rows of its own shard, and all of them. */
  lemma {:induction false} PartMembership<R>(rows: seq<R>, key: R -> nat, s: nat, n: int, x: R)
    ensures x in RowsFor(rows, key, s, n) <==> x in rows && ShardIndex(key(x), n) == s
  {
    if rows != [] {
      var k := |rows| - 1;
      PartMembership(rows[..k], key, s, n, x);
      assert rows == rows[..k] + [rows[k]];
    }
  }

  /** The sizes of the parts add up to the size of the whole. */
  lemma {:induction false} SizesAddUp<R>(rows: seq<R>, key: R -> nat, n: int, size: R -> int)
    ensures SumBy(size, Parts(rows, key, n, Shards(n))) == SumBy(size, rows)
  {
    SplitLossless(rows, key, n);
    SumByPermutation(size, Parts(rows, key, n, Shards(n)), rows);
  }

  // ----- appending a row to a part

  function Push<T>(col: seq<T>, v: Option<T>): seq<T> {
    if v.Some? then col + [v.value] else col
  }

  /** A column that can still be extended at row n without slipping. */
  ghost predicate Fits<T>(col: seq<T>, n: nat, v: Option<T>) {
    |col| <= n && (v.Some? ==> |col| == n)
  }

  lemma {:induction false} PushAligned<T>(col: seq<T>, n: nat, v: Option<T>)
    requires Fits(col, n, v)
    ensures forall j: nat :: j < n ==> At(Push(col, v), j) == At(col, j)
    ensures At(Push(col, v), n) == v
  {
  }

  function AppendSeries(b: SeriesData, r: SeriesRow): SeriesData {
    b.(fingerprint := b.fingerprint + [r.fingerprint], date := Push(b.date, r.date), labels := Push(b.labels, r.labels),
       ttlDays := Push(b.ttlDays, r.ttlDays), typ := Push(b.typ, r.typ), metadata := Push(b.metadata, r.metadata),
       size := b.size + SeriesSize()(r))
  }

  ghost predicate SeriesFits(b: SeriesData, r: SeriesRow) {
    var n := |b.fingerprint|;
    && Fits(b.date, n, r.date) && Fits(b.labels, n, r.labels) && Fits(b.ttlDays, n, r.ttlDays)
    && Fits(b.typ, n, r.typ) && Fits(b.metadata, n, r.metadata)
  }

  lemma {:induction false} SeriesAppended(b: SeriesData, r: SeriesRow)
    requires SeriesFits(b, r)
    ensures SeriesRows(AppendSeries(b, r)) == SeriesRows(b) + [r]
  {
    var n := |b.fingerprint|;
    PushAligned(b.date, n, r.date);
    PushAligned(b.labels, n, r.labels);
    PushAligned(b.ttlDays, n, r.ttlDays);
    PushAligned(b.typ, n, r.typ);
    PushAligned(b.metadata, n, r.metadata);
  }

  function AppendSamples(b: SamplesData, r: SamplesRow): SamplesData {
    b.(fingerprint := b.fingerprint + [r.fingerprint], timestampNs := Push(b.timestampNs, r.timestampNs),
       message := Push(b.message, r.message), value := Push(b.value, r.value), ttlDays := Push(b.ttlDays, r.ttlDays),
       typ := Push(b.typ, r.typ), size := b.size + SamplesSize()(r))
  }

  ghost predicate SamplesFits(b: SamplesData, r: SamplesRow) {
    var n := |b.fingerprint|;
    && Fits(b.timestampNs, n, r.timestampNs) && Fits(b.message, n, r.message) && Fits(b.value, n, r.value)
    && Fits(b.ttlDays, n, r.ttlDays) && Fits(b.typ, n, r.typ)
  }

  lemma {:induction false} SamplesAppended(b: SamplesData, r: SamplesRow)
    requires SamplesFits(b, r)
    ensures SamplesRows(AppendSamples(b, r)) == SamplesRows(b) + [r]
  {
    var n := |b.fingerprint|;
    PushAligned(b.timestampNs, n, r.timestampNs);
    PushAligned(b.message, n, r.message);
    PushAligned(b.value, n, r.value);
    PushAligned(b.ttlDays, n, r.ttlDays);
    PushAligned(b.typ, n, r.typ);
  }

  /** How far a part's column can lag: as long as the input column reaches row i it does not. */
  ghost predicate Keeps<T>(col: seq<T>, n: nat, from: seq<T>, i: nat) {
    |col| <= n && (i <= |from| ==> |col| == n)
  }

  ghost predicate SeriesKeeps(b: SeriesData, d: SeriesData, i: nat) {
    var n := |b.fingerprint|;
    && Keeps(b.date, n, d.date, i) && Keeps(b.labels, n, d.labels, i) && Keeps(b.ttlDays, n, d.ttlDays, i)
    && Keeps(b.typ, n, d.typ, i) && Keeps(b.metadata, n, d.metadata, i)
  }

  ghost predicate SamplesKeeps(b: SamplesData, d: SamplesData, i: nat) {
    var n := |b.fingerprint|;
    && Keeps(b.timestampNs, n, d.timestampNs, i) && Keeps(b.message, n, d.message, i) && Keeps(b.value, n, d.value, i)
    && Keeps(b.ttlDays, n, d.ttlDays, i) && Keeps(b.typ, n, d.typ, i)
  }

  /** What part s is: the rows of its shard, with the request's own header and their size. */
  ghost predicate SeriesPart(b: SeriesData, d: SeriesData, rows: seq<SeriesRow>, s: nat, n: int) {
    var mine := RowsFor(rows, SeriesKey(), s, n);
    SeriesRows(b) == mine && b.size == SumBy(SeriesSize(), mine) && b.meta == d.meta && b.oid == d.oid
  }

  ghost predicate SamplesPart(b: SamplesData, d: SamplesData, rows: seq<SamplesRow>, s: nat, n: int) {
    var mine := RowsFor(rows, SamplesKey(), s, n);
    SamplesRows(b) == mine && b.size == SumBy(SamplesSize(), mine) && b.oid == d.oid
  }

  lemma {:induction false} RowsForNext<R>(rows: seq<R>, key: R -> nat, s: nat, n: int, i: nat)
    requires i < |rows|
    ensures RowsFor(rows[..i + 1], key, s, n)
            == RowsFor(rows[..i], key, s, n) + if ShardIndex(key(rows[i]), n) == s then [rows[i]] else []
  {
    assert rows[..i + 1][..i] == rows[..i];
  }

  lemma {:induction false} SumAppended<R>(f: R -> int, s: seq<R>, x: R)
    ensures SumBy(f, s + [x]) == SumBy(f, s) + f(x)
  {
    assert (s + [x])[..|s|] == s;
  }

  /** Part s after the first i rows. */
  ghost predicate SeriesPartAt(b: SeriesData, d: SeriesData, rows: seq<SeriesRow>, i: nat, s: nat, n: int)
    requires i <= |rows|
  {
    SeriesPart(b, d, rows[..i], s, n) && SeriesKeeps(b, d, i)
  }

  lemma {:induction false} SeriesPartTakes(b: SeriesData, d: SeriesData, rows: seq<SeriesRow>, i: nat, s: nat, n: int)
    requires rows == SeriesRows(d) && i < |rows| && SeriesPartAt(b, d, rows, i, s, n)
    requires ShardIndex(rows[i].fingerprint, n) == s
    ensures SeriesPartAt(AppendSeries(b, rows[i]), d, rows, i + 1, s, n)
  {
    assert SeriesKeeps(AppendSeries(b, rows[i]), d, i + 1) && SeriesFits(b, rows[i]) by {
      SeriesKeepsMore(b, d, i);
    }
    SeriesAppended(b, rows[i]);
    SeriesPartMore(b, d, rows, i, s, n);
  }

  lemma {:induction false} SeriesKeepsMore(b: SeriesData, d: SeriesData, i: nat)
    requires i < |SeriesRows(d)| && SeriesKeeps(b, d, i)
    ensures SeriesKeeps(AppendSeries(b, SeriesRows(d)[i]), d, i + 1) && SeriesFits(b, SeriesRows(d)[i])
  {
  }

  lemma {:induction false} SeriesPartMore(b: SeriesData, d: SeriesData, rows: seq<SeriesRow>, i: nat, s: nat, n: int)
    requires i < |rows| && SeriesPart(b, d, rows[..i], s, n) && ShardIndex(rows[i].fingerprint, n) == s
    requires SeriesRows(AppendSeries(b, rows[i])) == SeriesRows(b) + [rows[i]]
    ensures SeriesPart(AppendSeries(b, rows[i]), d, rows[..i + 1], s, n)
  {
    RowsForNext(rows, SeriesKey(), s, n, i);
    SumAppended(SeriesSize(), RowsFor(rows[..i], SeriesKey(), s, n), rows[i]);
  }

  lemma {:induction false} SeriesPartPasses(b: SeriesData, d: SeriesData, rows: seq<SeriesRow>, i: nat, s: nat, n: int)
    requires rows == SeriesRows(d) && i < |rows| && SeriesPartAt(b, d, rows, i, s, n)
    requires ShardIndex(rows[i].fingerprint, n) != s
    ensures SeriesPartAt(b, d, rows, i + 1, s, n)
  {
    RowsForNext(rows, SeriesKey(), s, n, i);
  }

  lemma {:induction false} SeriesPartsHold(out: seq<SeriesData>, d: SeriesData, n: int)
    requires forall s :: 0 <= s < |out| ==> SeriesPart(out[s], d, SeriesRows(d), s, n)
    ensures forall s :: 0 <= s < |out| ==> HoldsShard(SeriesRows(out[s]), SeriesRows(d), SeriesKey(), s, n)
  {
    forall s | 0 <= s < |out| ensures HoldsShard(SeriesRows(out[s]), SeriesRows(d), SeriesKey(), s, n) {
      PartHolds(SeriesRows(d), SeriesKey(), s, n);
      assert SeriesPart(out[s], d, SeriesRows(d), s, n);
    }
  }

  method PartitionTimeSeries(input: Option<SeriesData>, shardCount: int) returns (out: seq<SeriesData>)
    ensures input.None? ==> out == []
    ensures input.Some? ==> |out| == Shards(shardCount)
    ensures input.Some? ==> forall s :: 0 <= s < |out| ==>
      SeriesPart(out[s], input.value, SeriesRows(input.value), s, shardCount)
    ensures input.Some? ==> forall s :: 0 <= s < |out| ==>
      HoldsShard(SeriesRows(out[s]), SeriesRows(input.value), SeriesKey(), s, shardCount)
  {
    if input.None? {
      return [];
    }
    var d := input.value;
    ghost var rows := SeriesRows(d);
    out := seq(Shards(shardCount), s => SeriesData([], [], [], [], [], [], d.meta, d.oid, 0));
    for i := 0 to |d.fingerprint|
      invariant |out| == Shards(shardCount)
      invariant forall s :: 0 <= s < |out| ==> SeriesPartAt(out[s], d, rows, i, s, shardCount)
    {
      var k := ShardIndex(d.fingerprint[i], shardCount);
      var r := SeriesAt(d, i);
      assert rows[i] == r;
      forall s | 0 <= s < |out|
        ensures SeriesPartAt(if s == k then AppendSeries(out[k], r) else out[s], d, rows, i + 1, s, shardCount)
      {
        if s == k {
          SeriesPartTakes(out[k], d, rows, i, k, shardCount);
        } else {
          SeriesPartPasses(out[s], d, rows, i, s, shardCount);
        }
      }
      out := out[k := AppendSeries(out[k], r)];
    }
    assert rows[..|rows|] == rows;
    SeriesPartsHold(out, d, shardCount);
  }

  /** Part s after the first i rows. */
  ghost predicate SamplesPartAt(b: SamplesData, d: SamplesData, rows: seq<SamplesRow>, i: nat, s: nat, n: int)
    requires i <= |rows|
  {
    SamplesPart(b, d, rows[..i], s, n) && SamplesKeeps(b, d, i)
  }

  lemma {:induction false} SamplesPartTakes(b: SamplesData, d: SamplesData, rows: seq<SamplesRow>, i: nat, s: nat, n: int)
    requires rows == SamplesRows(d) && i < |rows| && SamplesPartAt(b, d, rows, i, s, n)
    requires ShardIndex(rows[i].fingerprint, n) == s
    ensures SamplesPartAt(AppendSamples(b, rows[i]), d, rows, i + 1, s, n)
  {
    assert SamplesKeeps(AppendSamples(b, rows[i]), d, i + 1) && SamplesFits(b, rows[i]) by {
      SamplesKeepsMore(b, d, i);
    }
    SamplesAppended(b, rows[i]);
    SamplesPartMore(b, d, rows, i, s, n);
  }

  lemma {:induction false} SamplesKeepsMore(b: SamplesData, d: SamplesData, i: nat)
    requires i < |SamplesRows(d)| && SamplesKeeps(b, d, i)
    ensures SamplesKeeps(AppendSamples(b, SamplesRows(d)[i]), d, i + 1) && SamplesFits(b, SamplesRows(d)[i])
  {
  }

  lemma {:induction false} SamplesPartMore(b: SamplesData, d: SamplesData, rows: seq<SamplesRow>, i: nat, s: nat, n: int)
    requires i < |rows| && SamplesPart(b, d, rows[..i], s, n) && ShardIndex(rows[i].fingerprint, n) == s
    requires SamplesRows(AppendSamples(b, rows[i])) == SamplesRows(b) + [rows[i]]
    ensures SamplesPart(AppendSamples(b, rows[i]), d, rows[..i + 1], s, n)
  {
    RowsForNext(rows, SamplesKey(), s, n, i);
    SumAppended(SamplesSize(), RowsFor(rows[..i], SamplesKey(), s, n), rows[i]);
  }

  lemma {:induction false} SamplesPartPasses(b: SamplesData, d: SamplesData, rows: seq<SamplesRow>, i: nat, s: nat, n: int)
    requires rows == SamplesRows(d) && i < |rows| && SamplesPartAt(b, d, rows, i, s, n)
    requires ShardIndex(rows[i].fingerprint, n) != s
    ensures SamplesPartAt(b, d, rows, i + 1, s, n)
  {
    RowsForNext(rows, SamplesKey(), s, n, i);
  }

  lemma {:induction false} SamplesPartsHold(out: seq<SamplesData>, d: SamplesData, n: int)
    requires forall s :: 0 <= s < |out| ==> SamplesPart(out[s], d, SamplesRows(d), s, n)
    ensures forall s :: 0 <= s < |out| ==> HoldsShard(SamplesRows(out[s]), SamplesRows(d), SamplesKey(), s, n)
  {
    forall s | 0 <= s < |out| ensures HoldsShard(SamplesRows(out[s]), SamplesRows(d), SamplesKey(), s, n) {
      PartHolds(SamplesRows(d), SamplesKey(), s, n);
      assert SamplesPart(out[s], d, SamplesRows(d), s, n);
    }
  }

  method PartitionTimeSamples(input: Option<SamplesData>, shardCount: int) returns (out: seq<SamplesData>)
    ensures input.None? ==> out == []
    ensures input.Some? ==> |out| == Shards(shardCount)
    ensures input.Some? ==> forall s :: 0 <= s < |out| ==>
      SamplesPart(out[s], input.value, SamplesRows(input.value), s, shardCount)
    ensures input.Some? ==> forall s :: 0 <= s < |out| ==>
      HoldsShard(SamplesRows(out[s]), SamplesRows(input.value), SamplesKey(), s, shardCount)
  {
    if input.None? {
      return [];
    }
    var d := input.value;
    ghost var rows := SamplesRows(d);
    out := seq(Shards(shardCount), s => SamplesData([], [], [], [], [], [], d.oid, 0));
    for i := 0 to |d.fingerprint|
      invariant |out| == Shards(shardCount)
      invariant forall s :: 0 <= s < |out| ==> SamplesPartAt(out[s], d, rows, i, s, shardCount)
    {
      var k := ShardIndex(d.fingerprint[i], shardCount);
      var r := SamplesAt(d, i);
      assert rows[i] == r;
      forall s | 0 <= s < |out|
        ensures SamplesPartAt(if s == k then AppendSamples(out[k], r) else out[s], d, rows, i + 1, s, shardCount)
      {
        if s == k {
          SamplesPartTakes(out[k], d, rows, i, k, shardCount);
        } else {
          SamplesPartPasses(out[s], d, rows, i, s, shardCount);
        }
      }
      out := out[k := AppendSamples(out[k], r)];
    }
    assert rows[..|rows|] == rows;
    SamplesPartsHold(out, d, shardCount);
  }

  // ----- the split in numbers

  ghost predicate Times(f: nat, n: int, s: nat, q: nat) {
    f == n * q + s
  }

  /** The fingerprint is s modulo the number of shards; below one shard everything is in part 0. */
  ghost predicate IsModulo(f: nat, n: int, s: nat) {
    if n < 1 then s == 0 else s < n && exists q: nat :: Times(f, n, s, q)
  }

  lemma {:induction false} ShardIndexIs(f: nat, n: int, s: nat)
    ensures ShardIndex(f, n) == s <==> IsModulo(f, n, s)
  {
    if n >= 1 {
      assert Times(f, n, f % n, f / n);
      if q: nat :| s < n && Times(f, n, s, q) {
        Euclid(f, n, q, s);
      }
    }
  }

  /** places are strictly rising, and exactly those of the rows whose fingerprint is s modulo n. */
  ghost predicate PlacesOfShard<R>(rows: seq<R>, key: R -> nat, s: nat, n: int, places: seq<nat>) {
    && (forall i :: 0 <= i < |rows| ==> (i in places <==> IsModulo(key(rows[i]), n, s)))
    && (forall j :: 0 <= j < |places| ==> places[j] < |rows|)
    && (forall j, k :: 0 <= j < k < |places| ==> places[j] < places[k])
  }

  ghost predicate ReadsAt<R>(part: seq<R>, rows: seq<R>, places: seq<nat>) {
    |part| == |places| && forall j :: 0 <= j < |part| ==> places[j] < |rows| && part[j] == rows[places[j]]
  }

  /** A part holds the rows whose fingerprint is the shard modulo the count, each as often as the
      request, and in the order of the request. */
  lemma {:induction false} PartInOrder<R>(rows: seq<R>, key: R -> nat, s: nat, n: int) returns (places: seq<nat>)
    ensures PlacesOfShard(rows, key, s, n, places) && ReadsAt(RowsFor(rows, key, s, n), rows, places)
  {
    if rows == [] {
      places := [];
    } else {
      var k := |rows| - 1;
      var before := PartInOrder(rows[..k], key, s, n);
      ShardIndexIs(key(rows[k]), n, s);
      places := if IsModulo(key(rows[k]), n, s) then before + [k] else before;
      OneMorePlace(rows, key, s, n, before, places);
    }
  }

  /** A part of a request: the rows of its shard. */
  ghost predicate HoldsShard<R(!new)>(part: seq<R>, rows: seq<R>, key: R -> nat, s: nat, n: int) {
    exists places :: PlacesOfShard(rows, key, s, n, places) && ReadsAt(part, rows, places)
  }

  lemma {:induction false} PartHolds<R(!new)>(rows: seq<R>, key: R -> nat, s: nat, n: int)
    ensures HoldsShard(RowsFor(rows, key, s, n), rows, key, s, n)
  {
    var places := PartInOrder(rows, key, s, n);
  }

  lemma {:induction false} OneMorePlace<R>(rows: seq<R>, key: R -> nat, s: nat, n: int, before: seq<nat>, places: seq<nat>)
    requires rows != [] && PlacesOfShard(rows[..|rows| - 1], key, s, n, before)
    requires places == if IsModulo(key(rows[|rows| - 1]), n, s) then before + [|rows| - 1] else before
    ensures PlacesOfShard(rows, key, s, n, places)
  {
    var k := |rows| - 1;
    forall i | 0 <= i < |rows| ensures i in places <==> IsModulo(key(rows[i]), n, s) {
      if i < k {
        assert rows[..k][i] == rows[i];
      }
    }
  }

  /** The bytes of text in a row. */
  function SeriesText(): SeriesRow -> int {
    (r: SeriesRow) => |Text(r.labels)| + |Text(r.metadata)|
  }

  function SamplesText(): SamplesRow -> int {
    (r: SamplesRow) => |Text(r.message)|
  }

  lemma {:induction false} SumShifted<R>(f: R -> int, g: R -> int, rows: seq<R>, k: int)
    requires forall x :: f(x) == k + g(x)
    ensures SumBy(f, rows) == k * |rows| + SumBy(g, rows)
  {
    if rows != [] {
      SumShifted(f, g, rows[..|rows| - 1], k);
    }
  }

  /** What the parts of a split request are: part s holds the rows of the request whose fingerprint
      is s modulo the count, in their order, under the request's header, and is sized by them. */
  lemma {:induction false} SeriesPartIs(b: SeriesData, d: SeriesData, s: nat, n: int) returns (places: seq<nat>)
    requires SeriesPart(b, d, SeriesRows(d), s, n)
    ensures PlacesOfShard(d.fingerprint, (f: nat) => f, s, n, places)
    ensures ReadsAt(SeriesRows(b), SeriesRows(d), places)
    ensures b.meta == d.meta && b.oid == d.oid
    ensures b.size == 14 * |places| + SumBy(SeriesText(), SeriesRows(b))
  {
    places := PartInOrder(SeriesRows(d), SeriesKey(), s, n);
    SumShifted(SeriesSize(), SeriesText(), SeriesRows(b), 14);
    var rows := SeriesRows(d);
    assert forall i :: 0 <= i < |rows| ==> SeriesKey()(rows[i]) == d.fingerprint[i];
  }

  lemma {:induction false} SamplesPartIs(b: SamplesData, d: SamplesData, s: nat, n: int) returns (places: seq<nat>)
    requires SamplesPart(b, d, SamplesRows(d), s, n)
    ensures PlacesOfShard(d.fingerprint, (f: nat) => f, s, n, places)
    ensures ReadsAt(SamplesRows(b), SamplesRows(d), places)
    ensures b.oid == d.oid && b.size == 26 * |places| + SumBy(SamplesText(), SamplesRows(b))
  {
    places := PartInOrder(SamplesRows(d), SamplesKey(), s, n);
    SumShifted(SamplesSize(), SamplesText(), SamplesRows(b), 26);
    var rows := SamplesRows(d);
    assert forall i :: 0 <= i < |rows| ==> SamplesKey()(rows[i]) == d.fingerprint[i];
  }
}
