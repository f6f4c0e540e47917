/** What merging keeps beside function names: for separating keys every sample of the merged profile
    reads, in full, as the inputs do. A reading has no reference left in it: function, system and
    file names, line numbers, addresses, mappings as far as their key tells them apart, and the
    key and text of each label. */
module MergeReads {
  import opened Sequences
  import opened Pprof
  import opened Sanitize
  import opened ProfileMerge
  import opened MergeIntegrity
  import opened MergeMeaning
  import opened MergeKeys
  import opened MergeHeaders

  // ----- readings

  datatype FnText = FnText(name: string, system: string, file: string, startLine: int)
  datatype MapText = MapText(size: int, offset: nat, text: string)
  datatype LineText = LineText(fn: Option<FnText>, line: int)
  datatype LocText = LocText(address: nat, mapping: Option<MapText>, lines: seq<LineText>)
  datatype Reading = Reading(stack: seq<Option<LocText>>, labels: multiset<(string, string)>)

  datatype Tables = Tables(strings: seq<string>, functions: seq<Function>, mappings: seq<Mapping>,
                           locations: seq<Location>)

  function TablesIn(p: Profile): Tables {
    Tables(p.stringTable, p.functions, p.mappings, p.locations)
  }

  function FnRead(st: seq<string>, f: Function): FnText {
    FnText(StringAt(st, f.name), StringAt(st, f.systemName), StringAt(st, f.filename), f.startLine)
  }

  /** GetMappingKey: the size in pages of 4096 bytes, in 64 bits. */
  function PageSize(m: Mapping): int {
    var size := (m.memoryLimit - m.memoryStart) % 0x1_0000_0000_0000_0000;
    var up := (size + 0xfff) % 0x1_0000_0000_0000_0000;
    up - up % 0x1000
  }

  /** The build id or, when it is empty, the file. */
  function MapRead(st: seq<string>, m: Mapping): MapText {
    MapText(PageSize(m), m.fileOffset,
            if StringAt(st, m.buildId) != "" then StringAt(st, m.buildId) else StringAt(st, m.filename))
  }

  function LineRead(t: Tables): Line -> LineText {
    (l: Line) =>
      LineText(if 1 <= l.functionId <= |t.functions| then Some(FnRead(t.strings, t.functions[l.functionId - 1])) else None,
               l.line)
  }

  function LocRead(t: Tables, l: Location): LocText {
    LocText(l.address,
            if 1 <= l.mappingId <= |t.mappings| then Some(MapRead(t.strings, t.mappings[l.mappingId - 1])) else None,
            MapSeq(LineRead(t), l.lines))
  }

  function LocAt(t: Tables): nat -> Option<LocText> {
    (id: nat) => if 1 <= id <= |t.locations| then Some(LocRead(t, t.locations[id - 1])) else None
  }

  function LabelRead(st: seq<string>): ((int, int)) -> (string, string) {
    (l: (int, int)) => (StringAt(st, l.0), StringAt(st, l.1))
  }

  function LabelPair(): Label -> (int, int) {
    (l: Label) => (l.key, l.str)
  }

  function SampleRead(t: Tables, s: Sample): Reading {
    Reading(MapSeq(LocAt(t), s.locationId),
            multiset(MapSeq(LabelRead(t.strings), MapSeq(LabelPair(), s.labels))))
  }

  /** What one sample adds to the weight of a reading. */
  function ReadWeight(t: Tables, r: Reading, c: nat): Sample -> int {
    (s: Sample) => if SampleRead(t, s) == r then ColumnValue(c)(s) else 0
  }

  // ----- equal prints read the same

  /** What the mapping key prints. */
  function PrintedMapping(m: Mapping): (int, nat, int) {
    (PageSize(m), m.fileOffset, if m.buildId != 0 then m.buildId else m.filename)
  }

  ghost predicate SeparatesMappings(keys: Keys) {
    forall a, b :: keys.mapping(a) == keys.mapping(b) <==> PrintedMapping(a) == PrintedMapping(b)
  }

  lemma {:induction false} ImagePermutation<A, B>(f: A -> B, s: seq<A>, t: seq<A>)
    requires multiset(s) == multiset(t)
    ensures multiset(MapSeq(f, s)) == multiset(MapSeq(f, t))
    decreases |s|
  {
    if s == [] {
      assert |multiset(t)| == |t| == 0;
    } else {
      var n := |s| - 1;
      assert s[n] in multiset(t);
      var k :| 0 <= k < |t| && t[k] == s[n];
      var u := t[..k] + t[k + 1..];
      TakeOut((x: A) => 0, s, n);
      TakeOut((x: A) => 0, t, k);
      assert s[..n] + s[n + 1..] == s[..n];
      assert multiset(s[..n]) == multiset(s) - multiset{s[n]} == multiset(u);
      ImagePermutation(f, s[..n], u);
      ImageTakeOut(f, s, n);
      ImageTakeOut(f, t, k);
    }
  }

  lemma {:induction false} ImageTakeOut<A, B>(f: A -> B, t: seq<A>, k: nat)
    requires k < |t|
    ensures multiset(MapSeq(f, t)) == multiset(MapSeq(f, t[..k] + t[k + 1..])) + multiset{f(t[k])}
  {
    var u := t[..k] + t[k + 1..];
    assert MapSeq(f, t)[..k] + MapSeq(f, t)[k + 1..] == MapSeq(f, u);
    TakeOut((x: B) => 0, MapSeq(f, t), k);
  }

  /** Two samples that print the same read the same, whatever the tables. */
  lemma {:induction false} PrintedReads(t: Tables, a: Sample, b: Sample)
    requires PrintedSample(a) == PrintedSample(b)
    ensures SampleRead(t, a) == SampleRead(t, b)
  {
    PairsPrinted(a.labels);
    PairsPrinted(b.labels);
    ImagePermutation(LabelRead(t.strings), MapSeq(LabelPair(), a.labels), MapSeq(LabelPair(), b.labels));
  }

  lemma {:induction false} PairsPrinted(labels: seq<Label>)
    ensures PrintedLabels(labels) == multiset(MapSeq(LabelPair(), labels))
  {
    assert MapSeq(LabelPair(), labels)
           == seq(|labels|, i requires 0 <= i < |labels| => (labels[i].key, labels[i].str));
  }

  // ----- the merged tables against the input's

  /** References into st, moved, read the same; and "" stands at 0 and nowhere else. */
  ghost predicate TextMoved(merged: seq<string>, st: seq<string>, strIdx: seq<nat>) {
    && RefsInto(strIdx, st, merged)
    && (forall i :: 0 <= i < |st| ==> StringAt(merged, Ref(strIdx, i)) == st[i])
    && (forall i :: InTable(merged, i) ==> (StringAt(merged, i) == "" <==> i == 0))
  }

  lemma {:induction false} FnMoved(merged: seq<string>, st: seq<string>, strIdx: seq<nat>, e: Function, f: Function)
    requires TextMoved(merged, st, strIdx)
    requires InTable(st, f.name) && InTable(st, f.systemName) && InTable(st, f.filename)
    requires PrintedFunction(e) == PrintedFunction(MoveFunction(strIdx)(f))
    ensures FnRead(merged, e) == FnRead(st, f)
  {
  }

  lemma {:induction false} MapMoved(merged: seq<string>, st: seq<string>, strIdx: seq<nat>, e: Mapping, m: Mapping)
    requires TextMoved(merged, st, strIdx) && InTable(st, m.buildId) && InTable(st, m.filename)
    requires InTable(merged, e.buildId) && InTable(merged, e.filename)
    requires PrintedMapping(e) == PrintedMapping(MoveMapping(strIdx)(m))
    ensures MapRead(merged, e) == MapRead(st, m)
  {
    assert InTable(merged, Ref(strIdx, m.buildId)) && InTable(merged, Ref(strIdx, m.filename));
  }

  ghost predicate FnAligned(v: Tables, q: Tables, fnIdx: seq<nat>, k: nat)
    requires k < |q.functions|
  {
    && k < |fnIdx| && 1 <= fnIdx[k] <= |v.functions|
    && FnRead(v.strings, v.functions[fnIdx[k] - 1]) == FnRead(q.strings, q.functions[k])
  }

  ghost predicate MapAligned(v: Tables, q: Tables, mapIdx: seq<nat>, k: nat)
    requires k < |q.mappings|
  {
    && k < |mapIdx| && 1 <= mapIdx[k] <= |v.mappings|
    && MapRead(v.strings, v.mappings[mapIdx[k] - 1]) == MapRead(q.strings, q.mappings[k])
  }

  ghost predicate LocAligned(v: Tables, q: Tables, locIdx: seq<nat>, k: nat)
    requires k < |q.locations|
  {
    && k < |locIdx| && 1 <= locIdx[k] <= |v.locations|
    && LocRead(v, v.locations[locIdx[k] - 1]) == LocRead(q, q.locations[k])
  }

  lemma {:induction false} LocMoved(v: Tables, q: Tables, fnIdx: seq<nat>, mapIdx: seq<nat>, e: Location, l: Location)
    requires forall k :: 0 <= k < |q.functions| ==> FnAligned(v, q, fnIdx, k)
    requires forall k :: 0 <= k < |q.mappings| ==> MapAligned(v, q, mapIdx, k)
    requires 1 <= l.mappingId <= |q.mappings| && LinesOk(l.lines, |q.functions|)
    requires PrintedLocation(e) == PrintedLocation(MoveLocation(fnIdx, mapIdx)(l))
    ensures LocRead(v, e) == LocRead(q, l)
  {
    assert MapAligned(v, q, mapIdx, l.mappingId - 1);
    forall j | 0 <= j < |l.lines| ensures LineRead(v)(e.lines[j]) == LineRead(q)(l.lines[j]) {
      assert FnAligned(v, q, fnIdx, l.lines[j].functionId - 1);
    }
    assert MapSeq(LineRead(v), e.lines) == MapSeq(LineRead(q), l.lines);
  }

  lemma {:induction false} MovedSampleReads(v: Tables, q: Tables, strIdx: seq<nat>, locIdx: seq<nat>, s: Sample)
    requires TextMoved(v.strings, q.strings, strIdx)
    requires forall k :: 0 <= k < |q.locations| ==> LocAligned(v, q, locIdx, k)
    requires IdsOk(s.locationId, |q.locations|) && LabelsOk(s.labels, q.strings)
    ensures SampleRead(v, MoveSample(strIdx, locIdx)(s)) == SampleRead(q, s)
  {
    var e := MoveSample(strIdx, locIdx)(s);
    forall j | 0 <= j < |s.locationId| ensures LocAt(v)(e.locationId[j]) == LocAt(q)(s.locationId[j]) {
      assert LocAligned(v, q, locIdx, s.locationId[j] - 1);
    }
    assert MapSeq(LocAt(v), e.locationId) == MapSeq(LocAt(q), s.locationId);
    var a, b := MapSeq(LabelPair(), e.labels), MapSeq(LabelPair(), s.labels);
    forall j | 0 <= j < |s.labels| ensures LabelRead(v.strings)(a[j]) == LabelRead(q.strings)(b[j]) {
    }
    assert MapSeq(LabelRead(v.strings), a) == MapSeq(LabelRead(q.strings), b);
  }

  // ----- old samples in larger tables

  ghost predicate TablesFit(t: Tables) {
    && FunctionsOk(t.functions, t.strings) && MappingsOk(t.mappings, t.strings)
    && LocationsOk(t.locations, |t.mappings|, |t.functions|)
  }

  ghost predicate Larger(t: Tables, u: Tables) {
    t.strings <= u.strings && t.functions <= u.functions && t.mappings <= u.mappings && t.locations <= u.locations
  }

  lemma {:induction false} LargerLoc(t: Tables, u: Tables, k: nat)
    requires TablesFit(t) && Larger(t, u) && k < |t.locations|
    ensures LocRead(u, u.locations[k]) == LocRead(t, t.locations[k])
  {
    var l := t.locations[k];
    assert u.locations[k] == l;
    forall j | 0 <= j < |l.lines| ensures LineRead(u)(l.lines[j]) == LineRead(t)(l.lines[j]) {
      assert u.functions[l.lines[j].functionId - 1] == t.functions[l.lines[j].functionId - 1];
    }
    assert MapSeq(LineRead(u), l.lines) == MapSeq(LineRead(t), l.lines);
    assert u.mappings[l.mappingId - 1] == t.mappings[l.mappingId - 1];
  }

  lemma {:induction false} LargerReads(t: Tables, u: Tables, s: Sample)
    requires TablesFit(t) && Larger(t, u) && IdsOk(s.locationId, |t.locations|) && LabelsOk(s.labels, t.strings)
    ensures SampleRead(u, s) == SampleRead(t, s)
  {
    forall j | 0 <= j < |s.locationId| ensures LocAt(u)(s.locationId[j]) == LocAt(t)(s.locationId[j]) {
      LargerLoc(t, u, s.locationId[j] - 1);
    }
    assert MapSeq(LocAt(u), s.locationId) == MapSeq(LocAt(t), s.locationId);
    var a := MapSeq(LabelPair(), s.labels);
    assert MapSeq(LabelRead(u.strings), a) == MapSeq(LabelRead(t.strings), a);
  }

  // ----- one merge

  ghost predicate AllSeparating(keys: Keys) {
    Separating(keys) && SeparatesMappings(keys)
  }

  ghost predicate ReadState(m: Merger, keys: Keys) {
    && Good(m) && KeyedState(m, keys) && Filed(m.strings, keys)
    && Keyed(m.mappings, MappingPolicy(keys))
  }

  function StateTables(m: Merger): Tables {
    Tables(m.strings.values, m.functions.values, m.mappings.values, m.locations.values)
  }

  ghost function SamePrintedFn(): (Function, Function) -> bool {
    (a: Function, b: Function) => PrintedFunction(a) == PrintedFunction(b)
  }

  ghost function SamePrintedMap(): (Mapping, Mapping) -> bool {
    (a: Mapping, b: Mapping) => PrintedMapping(a) == PrintedMapping(b)
  }

  ghost function SamePrintedLoc(): (Location, Location) -> bool {
    (a: Location, b: Location) => PrintedLocation(a) == PrintedLocation(b)
  }

  ghost function SamePrintedSample(): (Sample, Sample) -> bool {
    (a: Sample, b: Sample) => PrintedSample(a) == PrintedSample(b)
  }

  /** Every value was mapped to an entry that prints the same. */
  ghost predicate InternedAs<V(!new)>(entries: seq<V>, ids: seq<nat>, vs: seq<V>, same: (V, V) -> bool) {
    |ids| == |vs| && forall k :: 0 <= k < |vs| ==> 1 <= ids[k] <= |entries| && same(entries[ids[k] - 1], vs[k])
  }

  lemma {:induction false} InternAllAs<V(!new)>(t: Table<V>, vs: seq<V>, how: Policy<V>, same: (V, V) -> bool)
    requires Indexed(t) && Keyed(t, how)
    requires forall v, n :: how.key(how.copy(v, n)) == how.key(v) && same(how.copy(v, n), v)
    requires forall a, b :: how.key(a) == how.key(b) ==> same(a, b)
    ensures var (t', ids) := InternAll(t, vs, how);
            Keyed(t', how) && Indexed(t') && t.values <= t'.values && InternedAs(t'.values, ids, vs, same)
  {
    InternAllKeyed(t, vs, how, same);
    InternAllAgree(t, vs, how, same);
  }

  lemma {:induction false} FunctionsPrinted(t: Table<Function>, vs: seq<Function>, keys: Keys)
    requires AllSeparating(keys) && Indexed(t) && Keyed(t, FunctionPolicy(keys))
    ensures var (t', ids) := InternAll(t, vs, FunctionPolicy(keys));
            && Keyed(t', FunctionPolicy(keys)) && Indexed(t') && t.values <= t'.values
            && InternedAs(t'.values, ids, vs, SamePrintedFn())
  {
    forall f: Function, n: nat ensures PrintedFunction(f.(id := n)) == PrintedFunction(f) {
    }
    InternAllAs(t, vs, FunctionPolicy(keys), SamePrintedFn());
  }

  lemma {:induction false} MappingsPrinted(t: Table<Mapping>, vs: seq<Mapping>, keys: Keys)
    requires AllSeparating(keys) && Indexed(t) && Keyed(t, MappingPolicy(keys))
    ensures var (t', ids) := InternAll(t, vs, MappingPolicy(keys));
            && Keyed(t', MappingPolicy(keys)) && Indexed(t') && t.values <= t'.values
            && InternedAs(t'.values, ids, vs, SamePrintedMap())
  {
    forall m: Mapping, n: nat ensures PrintedMapping(m.(id := n)) == PrintedMapping(m) {
    }
    InternAllAs(t, vs, MappingPolicy(keys), SamePrintedMap());
  }

  lemma {:induction false} LocationsPrinted(t: Table<Location>, vs: seq<Location>, keys: Keys)
    requires AllSeparating(keys) && Indexed(t) && Keyed(t, LocationPolicy(keys))
    ensures var (t', ids) := InternAll(t, vs, LocationPolicy(keys));
            && Keyed(t', LocationPolicy(keys)) && Indexed(t') && t.values <= t'.values
            && InternedAs(t'.values, ids, vs, SamePrintedLoc())
  {
    forall l: Location, n: nat ensures PrintedLocation(l.(id := n)) == PrintedLocation(l) {
    }
    InternAllAs(t, vs, LocationPolicy(keys), SamePrintedLoc());
  }

  lemma {:induction false} SamplesPrinted(t: Table<Sample>, ss: seq<Sample>, keys: Keys)
    requires AllSeparating(keys) && Keyed(t, SamplePolicy(keys))
    ensures SampleHitsAgree(t, ss, SamplePolicy(keys), SamePrintedSample())
  {
    if ss != [] {
      var n := |ss| - 1;
      SamplesPrinted(t, ss[..n], keys);
      AddSamplesKeyed(t, ss[..n], keys);
    }
  }

  // ----- the tables of one merge

  lemma {:induction false} FunctionsAligned(v: Tables, q: Tables, strIdx: seq<nat>, fnIdx: seq<nat>)
    requires TextMoved(v.strings, q.strings, strIdx) && FunctionsOk(q.functions, q.strings)
    requires InternedAs(v.functions, fnIdx, MapSeq(MoveFunction(strIdx), q.functions), SamePrintedFn())
    ensures forall k :: 0 <= k < |q.functions| ==> FnAligned(v, q, fnIdx, k)
  {
    forall k | 0 <= k < |q.functions| ensures FnAligned(v, q, fnIdx, k) {
      var e := v.functions[fnIdx[k] - 1];
      assert SamePrintedFn()(e, MapSeq(MoveFunction(strIdx), q.functions)[k]);
      FnMoved(v.strings, q.strings, strIdx, e, q.functions[k]);
    }
  }

  lemma {:induction false} MappingsAligned(v: Tables, q: Tables, strIdx: seq<nat>, mapIdx: seq<nat>)
    requires TextMoved(v.strings, q.strings, strIdx) && MappingsOk(q.mappings, q.strings)
    requires MappingsOk(v.mappings, v.strings)
    requires InternedAs(v.mappings, mapIdx, MapSeq(MoveMapping(strIdx), q.mappings), SamePrintedMap())
    ensures forall k :: 0 <= k < |q.mappings| ==> MapAligned(v, q, mapIdx, k)
  {
    forall k | 0 <= k < |q.mappings| ensures MapAligned(v, q, mapIdx, k) {
      var e := v.mappings[mapIdx[k] - 1];
      assert SamePrintedMap()(e, MapSeq(MoveMapping(strIdx), q.mappings)[k]);
      MapMoved(v.strings, q.strings, strIdx, e, q.mappings[k]);
    }
  }

  lemma {:induction false} LocationsAligned(v: Tables, q: Tables, fnIdx: seq<nat>, mapIdx: seq<nat>, locIdx: seq<nat>)
    requires forall k :: 0 <= k < |q.functions| ==> FnAligned(v, q, fnIdx, k)
    requires forall k :: 0 <= k < |q.mappings| ==> MapAligned(v, q, mapIdx, k)
    requires LocationsOk(q.locations, |q.mappings|, |q.functions|)
    requires InternedAs(v.locations, locIdx, MapSeq(MoveLocation(fnIdx, mapIdx), q.locations), SamePrintedLoc())
    ensures forall k :: 0 <= k < |q.locations| ==> LocAligned(v, q, locIdx, k)
  {
    forall k | 0 <= k < |q.locations| ensures LocAligned(v, q, locIdx, k) {
      var e := v.locations[locIdx[k] - 1];
      assert SamePrintedLoc()(e, MapSeq(MoveLocation(fnIdx, mapIdx), q.locations)[k]);
      LocMoved(v, q, fnIdx, mapIdx, e, q.locations[k]);
    }
  }

  /** All of q's locations read the same in the merged tables v. */
  ghost predicate TablesAligned(v: Tables, q: Tables, strIdx: seq<nat>, locIdx: seq<nat>) {
    TextMoved(v.strings, q.strings, strIdx) && forall k :: 0 <= k < |q.locations| ==> LocAligned(v, q, locIdx, k)
  }

  ghost predicate KeyedTables(m: Merger, keys: Keys) {
    KeyedState(m, keys) && Keyed(m.mappings, MappingPolicy(keys))
  }

  lemma {:induction false} MergeAligns(m: Merger, q: Profile, strIdx: seq<nat>, keys: Keys) returns (locIdx: seq<nat>)
    requires AllSeparating(keys) && KeyedTables(m, keys) && TablesGood(m, |q.sampleType|) && WellFormed(q)
    requires TextMoved(m.strings.values, q.stringTable, strIdx)
    ensures var m' := MergeTables(m, q, strIdx, keys);
            && TablesAligned(StateTables(m'), TablesIn(q), strIdx, locIdx)
            && Larger(StateTables(m), StateTables(m')) && Keyed(m'.mappings, MappingPolicy(keys))
            && m'.samples == AddSamples(m.samples, MapSeq(MoveSample(strIdx, locIdx), q.samples), SamplePolicy(keys))
  {
    var m' := MergeTables(m, q, strIdx, keys);
    var v, t := StateTables(m'), TablesIn(q);
    MergeTablesGood(m, q, strIdx, keys, |q.sampleType|);
    var fs, ms := MapSeq(MoveFunction(strIdx), q.functions), MapSeq(MoveMapping(strIdx), q.mappings);
    var fnIdx, mapIdx := InternAll(m.functions, fs, FunctionPolicy(keys)).1, InternAll(m.mappings, ms, MappingPolicy(keys)).1;
    FunctionsPrinted(m.functions, fs, keys);
    MappingsPrinted(m.mappings, ms, keys);
    FunctionsAligned(v, t, strIdx, fnIdx);
    MappingsAligned(v, t, strIdx, mapIdx);
    var ls := MapSeq(MoveLocation(fnIdx, mapIdx), q.locations);
    locIdx := InternAll(m.locations, ls, LocationPolicy(keys)).1;
    LocationsPrinted(m.locations, ls, keys);
    LocationsAligned(v, t, fnIdx, mapIdx, locIdx);
  }

  // ----- sums of readings

  /** The weight of a reading in column c. */
  function ReadTotal(p: Profile, r: Reading, c: nat): int {
    SumBy(ReadWeight(TablesIn(p), r, c), p.samples)
  }

  lemma {:induction false} ReadWeightBy(t: Tables, u: Tables, r: Reading, c: nat, a: Sample, b: Sample)
    requires SampleRead(t, a) == SampleRead(u, b) && a.value == b.value
    ensures ReadWeight(t, r, c)(a) == ReadWeight(u, r, c)(b)
  {
    assert ColumnValue(c)(a) == ColumnValue(c)(b);
    var x := SampleRead(t, a);
    assert ReadWeight(t, r, c)(a) == if x == r then ColumnValue(c)(a) else 0;
    assert ReadWeight(u, r, c)(b) == if x == r then ColumnValue(c)(b) else 0;
  }

  /** A copy prints the same and weighs nothing. */
  lemma {:induction false} CopyReads(v: Tables, r: Reading, c: nat, keys: Keys, s: Sample, n: nat)
    ensures var x := SamplePolicy(keys).copy(s, n);
            SamePrintedSample()(x, s) && ReadWeight(v, r, c)(x) == 0
  {
    var x := s.(value := Zeros(|s.value|));
    assert x.labels == s.labels && x.locationId == s.locationId;
    assert ColumnValue(c)(x) == 0;
  }

  lemma {:induction false} AddedReads(v: Tables, r: Reading, c: nat, a: Sample, s: Sample)
    requires |a.value| == |s.value| && SamePrintedSample()(a, s)
    ensures ReadWeight(v, r, c)(AddValues(a, s)) == ReadWeight(v, r, c)(a) + ReadWeight(v, r, c)(s)
  {
    var x := AddValues(a, s);
    PrintedReads(v, a, s);
    assert x.labels == a.labels && x.locationId == a.locationId;
    var read := SampleRead(v, a);
    assert SampleRead(v, x) == read == SampleRead(v, s);
    assert ColumnValue(c)(x) == ColumnValue(c)(a) + ColumnValue(c)(s);
    assert ReadWeight(v, r, c)(x) == if read == r then ColumnValue(c)(x) else 0;
    assert ReadWeight(v, r, c)(a) == if read == r then ColumnValue(c)(a) else 0;
    assert ReadWeight(v, r, c)(s) == if read == r then ColumnValue(c)(s) else 0;
  }

  lemma {:induction false} SamplesAdd(v: Tables, r: Reading, c: nat, t: Table<Sample>, ss: seq<Sample>, keys: Keys, columns: nat)
    requires AllSeparating(keys) && Keyed(t, SamplePolicy(keys)) && Indexed(t)
    requires forall i :: 0 <= i < |t.values| ==> |t.values[i].value| == columns
    requires forall i :: 0 <= i < |ss| ==> |ss[i].value| == columns
    ensures var w := ReadWeight(v, r, c);
            SumBy(w, AddSamples(t, ss, SamplePolicy(keys)).values) == SumBy(w, t.values) + SumBy(w, ss)
  {
    var w, same := ReadWeight(v, r, c), SamePrintedSample();
    SamplesPrinted(t, ss, keys);
    forall s: Sample, n: nat
      ensures same(SamplePolicy(keys).copy(s, n), s) && w(SamplePolicy(keys).copy(s, n)) == 0
    {
      CopyReads(v, r, c, keys, s, n);
    }
    forall a: Sample, s: Sample | |a.value| == columns && |s.value| == columns && same(a, s)
      ensures w(AddValues(a, s)) == w(a) + w(s)
    {
      AddedReads(v, r, c, a, s);
    }
    AddSamplesSum(t, ss, keys, w, same, columns);
  }

  lemma {:induction false} OldReadings(t: Tables, u: Tables, ss: seq<Sample>, columns: nat, r: Reading, c: nat)
    requires TablesFit(t) && Larger(t, u) && SamplesOk(ss, columns, |t.locations|, t.strings)
    ensures SumBy(ReadWeight(u, r, c), ss) == SumBy(ReadWeight(t, r, c), ss)
  {
    forall i | 0 <= i < |ss| ensures ReadWeight(u, r, c)(ss[i]) == ReadWeight(t, r, c)(ss[i]) {
      assert SampleOk(ss[i], columns, |t.locations|, t.strings);
      LargerReads(t, u, ss[i]);
    }
    SumByEqual(ReadWeight(u, r, c), ReadWeight(t, r, c), ss);
  }

  lemma {:induction false} NewReadings(v: Tables, q: Tables, strIdx: seq<nat>, locIdx: seq<nat>, ss: seq<Sample>,
                                       columns: nat, r: Reading, c: nat)
    requires TablesAligned(v, q, strIdx, locIdx) && SamplesOk(ss, columns, |q.locations|, q.strings)
    ensures SumBy(ReadWeight(v, r, c), MapSeq(MoveSample(strIdx, locIdx), ss)) == SumBy(ReadWeight(q, r, c), ss)
  {
    var h := MoveSample(strIdx, locIdx);
    forall i | 0 <= i < |ss| ensures ReadWeight(v, r, c)(h(ss[i])) == ReadWeight(q, r, c)(ss[i]) {
      MovedReadWeight(v, q, strIdx, locIdx, ss[i], columns, r, c);
    }
    SumByMapped(ReadWeight(v, r, c), h, ReadWeight(q, r, c), ss);
  }

  lemma {:induction false} MovedReadWeight(v: Tables, q: Tables, strIdx: seq<nat>, locIdx: seq<nat>, s: Sample,
                                           columns: nat, r: Reading, c: nat)
    requires TablesAligned(v, q, strIdx, locIdx) && SampleOk(s, columns, |q.locations|, q.strings)
    ensures ReadWeight(v, r, c)(MoveSample(strIdx, locIdx)(s)) == ReadWeight(q, r, c)(s)
  {
    MovedSampleReads(v, q, strIdx, locIdx, s);
    ReadWeightBy(v, q, r, c, MoveSample(strIdx, locIdx)(s), s);
  }

  lemma {:induction false} MovedValues(ss: seq<Sample>, strIdx: seq<nat>, locIdx: seq<nat>, columns: nat)
    requires forall i :: 0 <= i < |ss| ==> |ss[i].value| == columns
    ensures forall i :: 0 <= i < |ss| ==> |MapSeq(MoveSample(strIdx, locIdx), ss)[i].value| == columns
  {
  }

  /** The table part of a merge: the readings of the state and of the input add up. */
  lemma {:induction false} TablesAddReadings(m: Merger, q: Profile, strIdx: seq<nat>, keys: Keys, r: Reading, c: nat)
    requires AllSeparating(keys) && KeyedTables(m, keys) && TablesGood(m, |q.sampleType|) && WellFormed(q)
    requires TextMoved(m.strings.values, q.stringTable, strIdx)
    ensures var m' := MergeTables(m, q, strIdx, keys);
            SumBy(ReadWeight(StateTables(m'), r, c), m'.samples.values)
            == SumBy(ReadWeight(StateTables(m), r, c), m.samples.values) + ReadTotal(q, r, c)
  {
    var v, columns := StateTables(MergeTables(m, q, strIdx, keys)), |q.sampleType|;
    var locIdx := MergeAligns(m, q, strIdx, keys);
    MovedValues(q.samples, strIdx, locIdx, columns);
    SamplesAdd(v, r, c, m.samples, MapSeq(MoveSample(strIdx, locIdx), q.samples), keys, columns);
    OldReadings(StateTables(m), v, m.samples.values, columns, r, c);
    NewReadings(v, TablesIn(q), strIdx, locIdx, q.samples, columns, r, c);
  }

  // ----- one merge

  /** "" is string 0 of the merged table and nothing else, and every string of q has its place. */
  lemma {:induction false} MergedText(m: Merger, q: Profile, keys: Keys)
    requires SeparatesText(keys) && TextState(m, keys) && WellFormed(q)
    ensures var (t, strIdx) := InternAll(m.strings, q.stringTable, StringPolicy(keys));
            TextMoved(t.values, q.stringTable, strIdx) && m.strings.values <= t.values
  {
    var (t, strIdx) := InternAll(m.strings, q.stringTable, StringPolicy(keys));
    InternAllFiled(m.strings, q.stringTable, keys);
    StringsGrow(m.strings, q.stringTable, keys);
    forall i | InTable(t.values, i) ensures StringAt(t.values, i) == "" <==> i == 0 {
      SameTextSameRef(t, keys, i, 0);
    }
  }

  /** The sum of the readings in the state's own tables. */
  function StateTotal(m: Merger, r: Reading, c: nat): int {
    SumBy(ReadWeight(StateTables(m), r, c), m.samples.values)
  }

  lemma {:induction false} LargerStrings(m: Merger, m': Merger, r: Reading, c: nat)
    requires Good(m) && m' == m.(strings := m'.strings, header := m'.header) && m.strings.values <= m'.strings.values
    ensures StateTotal(m', r, c) == StateTotal(m, r, c)
  {
    var columns := if m.header.Some? then |m.header.value.sampleType| else 0;
    OldReadings(StateTables(m), StateTables(m'), m.samples.values, columns, r, c);
  }

  lemma {:induction false} MergeAddsReadings(m: Merger, p: Profile, keys: Keys, r: Reading, c: nat)
    requires AllSeparating(keys) && ReadState(m, keys)
    ensures var (m', out) := Merge(m, p, keys);
            StateTotal(m', r, c) == StateTotal(m, r, c) + if out == Merged then ReadTotal(Sanitized(p), r, c) else 0
  {
    var (m', out) := Merge(m, p, keys);
    var q := Sanitized(p);
    SanitizedWellFormed(p);
    MergedText(m, q, keys);
    if out == Merged {
      AcceptedGood(m, p, keys);
      var (m2, strIdx) := Accepted(m, p, keys);
      InternAllFiled(m.strings, q.stringTable, keys);
      LargerStrings(m, m2, r, c);
      TablesAddReadings(m2, q, strIdx, keys, r, c);
    } else {
      FailedMergeKeepsState(m, p, keys);
      LargerStrings(m, m', r, c);
    }
  }

  lemma {:induction false} MergeKeepsReadState(m: Merger, p: Profile, keys: Keys)
    requires AllSeparating(keys) && ReadState(m, keys)
    ensures ReadState(Merge(m, p, keys).0, keys)
  {
    MergeKeepsText(m, p, keys);
    MergeKeyed(m, p, keys);
    if Merge(m, p, keys).1 == Merged {
      var (m2, strIdx) := Accepted(m, p, keys);
      MappingsPrinted(m.mappings, MapSeq(MoveMapping(strIdx), Sanitized(p).mappings), keys);
    } else {
      FailedMergeKeepsState(m, p, keys);
    }
  }

  lemma {:induction false} RunKeepsReadState(ps: seq<Profile>, keys: Keys)
    requires AllSeparating(keys)
    ensures ReadState(Run(ps, keys), keys)
  {
    if ps != [] {
      RunKeepsReadState(ps[..|ps| - 1], keys);
      MergeKeepsReadState(Run(ps[..|ps| - 1], keys), ps[|ps| - 1], keys);
    }
  }

  // ----- whole runs

  /** The weights of a reading in the repaired inputs that a run merged. */
  ghost function MergedReadings(ps: seq<Profile>, keys: Keys, r: Reading, c: nat): int {
    if ps == [] then 0
    else
      var n := |ps| - 1;
      MergedReadings(ps[..n], keys, r, c) +
      if Merge(Run(ps[..n], keys), ps[n], keys).1 == Merged then ReadTotal(Sanitized(ps[n]), r, c) else 0
  }

  lemma {:induction false} ViewTotal(m: Merger, r: Reading, c: nat)
    requires Good(m)
    ensures ReadTotal(View(m), r, c) == StateTotal(m, r, c)
  {
    if m.header.Some? {
      assert TablesIn(View(m)) == StateTables(m) && View(m).samples == m.samples.values;
    } else {
      assert View(m).samples == [] == m.samples.values;
    }
  }

  lemma {:induction false} RunAddsStates(ps: seq<Profile>, keys: Keys, r: Reading, c: nat)
    requires AllSeparating(keys)
    ensures StateTotal(Run(ps, keys), r, c) == MergedReadings(ps, keys, r, c)
  {
    if ps != [] {
      var n := |ps| - 1;
      RunAddsStates(ps[..n], keys, r, c);
      RunKeepsReadState(ps[..n], keys);
      MergeAddsReadings(Run(ps[..n], keys), ps[n], keys, r, c);
    }
  }

  /** For keys that separate what they print, the merged profile gives every reading the sum of the
      weights that the repaired inputs that merged give it: nothing of a sample is lost or mixed up
      but what its keys leave out. */
  lemma {:induction false} RunAddsReadings(ps: seq<Profile>, keys: Keys, r: Reading, c: nat)
    requires AllSeparating(keys)
    ensures ReadTotal(ProfileOf(Run(ps, keys)), r, c) == MergedReadings(ps, keys, r, c)
  {
    RunAddsStates(ps, keys, r, c);
    ResultIntegrity(ps, keys);
    RunGood(ps, keys);
    ViewTotal(Run(ps, keys), r, c);
  }
}
