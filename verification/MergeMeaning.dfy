/** Merging preserves meaning: when no key hit confuses two values that read differently, the
    merged profile gives every call stack the sum of the weights its inputs give it. */
module MergeMeaning {
  import opened Sequences
  import opened Pprof
  import opened Sanitize
  import opened ProfileMerge
  import opened MergeIntegrity

  // ----- what a hit has to agree on

  ghost function SameString(): (string, string) -> bool {
    (a: string, b: string) => a == b
  }

  ghost function SameFunction(): (Function, Function) -> bool {
    (a: Function, b: Function) => a.name == b.name
  }

  ghost function SameLines(): (Location, Location) -> bool {
    (a: Location, b: Location) => a.lines == b.lines
  }

  ghost function SameStack(): (Sample, Sample) -> bool {
    (a: Sample, b: Sample) => a.locationId == b.locationId
  }

  /** No key hit in the table part of this merge confuses values that read differently. */
  ghost predicate CleanTables(m: Merger, q: Profile, strIdx: seq<nat>, keys: Keys) {
    var fs := MapSeq(MoveFunction(strIdx), q.functions);
    var fnIdx := InternAll(m.functions, fs, FunctionPolicy(keys)).1;
    var mapIdx := InternAll(m.mappings, MapSeq(MoveMapping(strIdx), q.mappings), MappingPolicy(keys)).1;
    var ls := MapSeq(MoveLocation(fnIdx, mapIdx), q.locations);
    var locIdx := InternAll(m.locations, ls, LocationPolicy(keys)).1;
    && HitsAgree(m.functions, fs, FunctionPolicy(keys), SameFunction())
    && HitsAgree(m.locations, ls, LocationPolicy(keys), SameLines())
    && SampleHitsAgree(m.samples, MapSeq(MoveSample(strIdx, locIdx), q.samples), SamplePolicy(keys), SameStack())
  }

  /** No key hit of this merge confuses values that read differently. */
  ghost predicate Clean(m: Merger, p: Profile, keys: Keys) {
    Merge(m, p, keys).1 == Merged ==>
      && HitsAgree(m.strings, Sanitized(p).stringTable, StringPolicy(keys), SameString())
      && CleanTables(Accepted(m, p, keys).0, Sanitized(p), Accepted(m, p, keys).1, keys)
  }

  ghost predicate CleanRun(ps: seq<Profile>, keys: Keys) {
    ps == [] || (CleanRun(ps[..|ps| - 1], keys) && Clean(Run(ps[..|ps| - 1], keys), ps[|ps| - 1], keys))
  }

  // ----- references read the same in a larger profile

  ghost predicate DenseTables(p: Profile) {
    && FunctionsOk(p.functions, p.stringTable) && MappingsOk(p.mappings, p.stringTable)
    && LocationsOk(p.locations, |p.mappings|, |p.functions|)
  }

  /** Two lines of two profiles name the same function name. */
  ghost predicate SameName(p: Profile, a: Line, q: Profile, b: Line) {
    FunctionName(p.functions, p.stringTable, a.functionId) == FunctionName(q.functions, q.stringTable, b.functionId)
  }

  lemma {:induction false} LineNamesEqual(p: Profile, a: seq<Line>, q: Profile, b: seq<Line>)
    requires |a| == |b| && forall j :: 0 <= j < |a| ==> SameName(p, a[j], q, b[j])
    ensures LineNames(p.functions, p.stringTable, a) == LineNames(q.functions, q.stringTable, b)
  {
    if a != [] {
      var n := |a| - 1;
      LineNamesEqual(p, a[..n], q, b[..n]);
      assert SameName(p, a[n], q, b[n]);
    }
  }

  /** Two location ids of two profiles name the same frame. */
  ghost predicate SameFrameAt(p: Profile, a: nat, q: Profile, b: nat) {
    FrameOf(p, p.locations, a) == FrameOf(q, q.locations, b)
  }

  lemma {:induction false} StacksEqual(p: Profile, a: seq<nat>, q: Profile, b: seq<nat>)
    requires |a| == |b| && forall j :: 0 <= j < |a| ==> SameFrameAt(p, a[j], q, b[j])
    ensures StackOf(p, a) == StackOf(q, b)
  {
    if a != [] {
      var n := |a| - 1;
      StacksEqual(p, a[..n], q, b[..n]);
      assert SameFrameAt(p, a[n], q, b[n]);
    }
  }

  ghost predicate Extends(p: Profile, q: Profile) {
    && DenseTables(p) && DenseTables(q)
    && p.stringTable <= q.stringTable && p.functions <= q.functions
    && p.mappings <= q.mappings && p.locations <= q.locations
  }

  lemma {:induction false} ExtendedFrame(p: Profile, q: Profile, id: nat)
    requires Extends(p, q) && 1 <= id <= |p.locations|
    ensures SameFrameAt(p, id, q, id)
  {
    var loc := p.locations[id - 1];
    assert q.locations[id - 1] == loc;
    DenseFrameOf(p, p.locations, id);
    DenseFrameOf(q, q.locations, id);
    DenseLocationFrame(p, loc);
    DenseLocationFrame(q, loc);
    forall j | 0 <= j < |loc.lines| ensures SameName(p, loc.lines[j], q, loc.lines[j]) {
      var k := loc.lines[j].functionId;
      DenseFunctionName(p.functions, p.stringTable, k);
      DenseFunctionName(q.functions, q.stringTable, k);
      assert q.functions[k - 1] == p.functions[k - 1];
    }
    LineNamesEqual(p, loc.lines, q, loc.lines);
  }

  /** Growing the tables does not change what a stack of old ids reads. */
  lemma {:induction false} ExtendedStack(p: Profile, q: Profile, ids: seq<nat>)
    requires Extends(p, q) && IdsOk(ids, |p.locations|)
    ensures StackOf(p, ids) == StackOf(q, ids)
  {
    forall j | 0 <= j < |ids| ensures SameFrameAt(p, ids[j], q, ids[j]) {
      ExtendedFrame(p, q, ids[j]);
    }
    StacksEqual(p, ids, q, ids);
  }

  // ----- a moved reference reads what the original read

  /** The merged tables v against the input q, linked by the index tables of the merge. */
  ghost predicate Moved(v: Profile, q: Profile, strIdx: seq<nat>, fnIdx: seq<nat>, locIdx: seq<nat>) {
    && DenseTables(v) && DenseTables(q)
    && RefsInto(strIdx, q.stringTable, v.stringTable)
    && (forall i :: 0 <= i < |q.stringTable| ==> StringAt(v.stringTable, Ref(strIdx, i)) == q.stringTable[i])
    && NamesMoved(v.functions, fnIdx, q.functions, strIdx)
    && LinesMoved(v.locations, locIdx, q.locations, fnIdx)
  }

  lemma {:induction false} MovedFunction(vf: seq<Function>, vst: seq<string>, k': nat, qf: seq<Function>, qst: seq<string>, k: nat)
    requires FunctionsOk(vf, vst) && FunctionsOk(qf, qst)
    requires 1 <= k <= |qf| && 1 <= k' <= |vf|
    requires StringAt(vst, vf[k' - 1].name) == StringAt(qst, qf[k - 1].name)
    ensures FunctionName(vf, vst, k') == FunctionName(qf, qst, k)
  {
    DenseFunctionName(qf, qst, k);
    DenseFunctionName(vf, vst, k');
  }

  lemma {:induction false} MovedName(v: Profile, q: Profile, strIdx: seq<nat>, fnIdx: seq<nat>, locIdx: seq<nat>, line: Line)
    requires Moved(v, q, strIdx, fnIdx, locIdx) && 1 <= line.functionId <= |q.functions|
    ensures SameName(v, MoveLine(fnIdx)(line), q, line)
  {
    var k := line.functionId;
    var k' := fnIdx[k - 1];
    assert MoveLine(fnIdx)(line).functionId == k';
    var name := q.functions[k - 1].name;
    assert v.functions[k' - 1].name == Ref(strIdx, name);
    assert InTable(q.stringTable, name);
    assert StringAt(v.stringTable, Ref(strIdx, name)) == q.stringTable[name];
    MovedFunction(v.functions, v.stringTable, k', q.functions, q.stringTable, k);
  }

  lemma {:induction false} MovedFrame(v: Profile, q: Profile, strIdx: seq<nat>, fnIdx: seq<nat>, locIdx: seq<nat>, id: nat)
    requires Moved(v, q, strIdx, fnIdx, locIdx) && 1 <= id <= |q.locations|
    ensures SameFrameAt(v, Id(locIdx, id), q, id)
  {
    var loc, moved := q.locations[id - 1], v.locations[locIdx[id - 1] - 1];
    DenseFrameOf(q, q.locations, id);
    DenseFrameOf(v, v.locations, locIdx[id - 1]);
    DenseLocationFrame(q, loc);
    DenseLocationFrame(v, moved);
    forall j | 0 <= j < |loc.lines| ensures SameName(v, moved.lines[j], q, loc.lines[j]) {
      MovedName(v, q, strIdx, fnIdx, locIdx, loc.lines[j]);
    }
    LineNamesEqual(v, moved.lines, q, loc.lines);
  }

  lemma {:induction false} MovedStack(v: Profile, q: Profile, strIdx: seq<nat>, fnIdx: seq<nat>, locIdx: seq<nat>, ids: seq<nat>)
    requires Moved(v, q, strIdx, fnIdx, locIdx) && IdsOk(ids, |q.locations|)
    ensures StackOf(v, MoveIds(locIdx, ids)) == StackOf(q, ids)
  {
    forall j | 0 <= j < |ids| ensures SameFrameAt(v, MoveIds(locIdx, ids)[j], q, ids[j]) {
      MovedFrame(v, q, strIdx, fnIdx, locIdx, ids[j]);
    }
    StacksEqual(v, MoveIds(locIdx, ids), q, ids);
  }

  // ----- sums of weights

  lemma {:induction false} SumByEqual<A>(f: A -> int, g: A -> int, s: seq<A>)
    requires forall i :: 0 <= i < |s| ==> f(s[i]) == g(s[i])
    ensures SumBy(f, s) == SumBy(g, s)
  {
    if s != [] {
      SumByEqual(f, g, s[..|s| - 1]);
    }
  }

  lemma {:induction false} SumByMapped<A, B>(f: B -> int, h: A -> B, g: A -> int, s: seq<A>)
    requires forall i :: 0 <= i < |s| ==> f(h(s[i])) == g(s[i])
    ensures SumBy(f, MapSeq(h, s)) == SumBy(g, s)
  {
    if s != [] {
      var n := |s| - 1;
      SumByMapped(f, h, g, s[..n]);
      assert MapSeq(h, s)[..n] == MapSeq(h, s[..n]);
    }
  }

  lemma {:induction false} AddedWeight(v: Profile, stack: Stack, c: nat, t: Table<Sample>, ss: seq<Sample>, keys: Keys)
    requires Indexed(t)
    requires forall i :: 0 <= i < |t.values| ==> |t.values[i].value| == |v.sampleType|
    requires forall i :: 0 <= i < |ss| ==> |ss[i].value| == |v.sampleType|
    requires SampleHitsAgree(t, ss, SamplePolicy(keys), SameStack())
    ensures var w := SampleWeight(v, stack, c);
            SumBy(w, AddSamples(t, ss, SamplePolicy(keys)).values) == SumBy(w, t.values) + SumBy(w, ss)
  {
    AddSamplesSum(t, ss, keys, SampleWeight(v, stack, c), SameStack(), |v.sampleType|);
  }

  // ----- one merge

  lemma {:induction false} StringsMoved(t: Table<string>, st: seq<string>, keys: Keys)
    requires Indexed(t) && HitsAgree(t, st, StringPolicy(keys), SameString())
    ensures var (t', strIdx) := InternAll(t, st, StringPolicy(keys));
            forall i :: 0 <= i < |st| ==> StringAt(t'.values, Ref(strIdx, i)) == st[i]
  {
    InternAllAgree(t, st, StringPolicy(keys), SameString());
  }

  ghost predicate NamesMoved(vs: seq<Function>, fnIdx: seq<nat>, fs: seq<Function>, strIdx: seq<nat>) {
    IdsInto(fnIdx, |fs|, |vs|) &&
    forall k :: 0 <= k < |fs| ==> vs[fnIdx[k] - 1].name == Ref(strIdx, fs[k].name)
  }

  lemma {:induction false} FunctionsMoved(t: Table<Function>, fs: seq<Function>, strIdx: seq<nat>, keys: Keys,
                       t': Table<Function>, fnIdx: seq<nat>)
    requires Indexed(t) && HitsAgree(t, MapSeq(MoveFunction(strIdx), fs), FunctionPolicy(keys), SameFunction())
    requires (t', fnIdx) == InternAll(t, MapSeq(MoveFunction(strIdx), fs), FunctionPolicy(keys))
    ensures Indexed(t') && t.values <= t'.values && NamesMoved(t'.values, fnIdx, fs, strIdx)
  {
    var vs := MapSeq(MoveFunction(strIdx), fs);
    InternAllAgree(t, vs, FunctionPolicy(keys), SameFunction());
    forall k | 0 <= k < |fs| ensures t'.values[fnIdx[k] - 1].name == Ref(strIdx, fs[k].name) {
      assert SameFunction()(t'.values[fnIdx[k] - 1], vs[k]);
    }
  }

  ghost predicate LinesMoved(vs: seq<Location>, locIdx: seq<nat>, ls: seq<Location>, fnIdx: seq<nat>) {
    IdsInto(locIdx, |ls|, |vs|) &&
    forall k :: 0 <= k < |ls| ==> vs[locIdx[k] - 1].lines == MapSeq(MoveLine(fnIdx), ls[k].lines)
  }

  lemma {:induction false} LocationsMoved(t: Table<Location>, ls: seq<Location>, fnIdx: seq<nat>, mapIdx: seq<nat>, keys: Keys,
                       t': Table<Location>, locIdx: seq<nat>)
    requires Indexed(t) && HitsAgree(t, MapSeq(MoveLocation(fnIdx, mapIdx), ls), LocationPolicy(keys), SameLines())
    requires (t', locIdx) == InternAll(t, MapSeq(MoveLocation(fnIdx, mapIdx), ls), LocationPolicy(keys))
    ensures Indexed(t') && t.values <= t'.values && LinesMoved(t'.values, locIdx, ls, fnIdx)
  {
    var vs := MapSeq(MoveLocation(fnIdx, mapIdx), ls);
    InternAllAgree(t, vs, LocationPolicy(keys), SameLines());
    forall k | 0 <= k < |ls| ensures t'.values[locIdx[k] - 1].lines == MapSeq(MoveLine(fnIdx), ls[k].lines) {
      assert SameLines()(t'.values[locIdx[k] - 1], vs[k]);
    }
  }

  /** The profile whose tables are those of a state. */
  ghost function TablesOf(m: Merger, columns: seq<ValueType>): Profile {
    EmptyProfile.(sampleType := columns, samples := m.samples.values, locations := m.locations.values,
                  functions := m.functions.values, mappings := m.mappings.values, stringTable := m.strings.values)
  }

  /** Weights only depend on the tables. */
  lemma {:induction false} WeightByTables(p: Profile, q: Profile, stack: Stack, c: nat)
    requires |p.sampleType| == |q.sampleType| && p.samples == q.samples && p.locations == q.locations
    requires p.functions == q.functions && p.mappings == q.mappings && p.stringTable == q.stringTable
    ensures Weight(p, stack, c) == Weight(q, stack, c)
  {
    forall i | 0 <= i < |p.samples|
      ensures SampleWeight(p, stack, c)(p.samples[i]) == SampleWeight(q, stack, c)(p.samples[i])
    {
      SameStacks(p, q, p.samples[i].locationId);
    }
    SumByEqual(SampleWeight(p, stack, c), SampleWeight(q, stack, c), p.samples);
  }

  lemma {:induction false} SameStacks(p: Profile, q: Profile, ids: seq<nat>)
    requires p.locations == q.locations && p.functions == q.functions
    requires p.mappings == q.mappings && p.stringTable == q.stringTable
    ensures StackOf(p, ids) == StackOf(q, ids)
  {
    forall j | 0 <= j < |ids| ensures SameFrameAt(p, ids[j], q, ids[j]) {
      SameFrames(p, q, p.locations, ids[j]);
    }
    StacksEqual(p, ids, q, ids);
  }

  lemma {:induction false} SameFrames(p: Profile, q: Profile, ls: seq<Location>, id: nat)
    requires p.functions == q.functions && p.mappings == q.mappings && p.stringTable == q.stringTable
    ensures FrameOf(p, ls, id) == FrameOf(q, ls, id)
  {
    if ls != [] {
      SameFrames(p, q, ls[..|ls| - 1], id);
    }
  }

  /** Weights of old samples read in larger tables. */
  lemma {:induction false} ExtendedWeight(p: Profile, q: Profile, stack: Stack, c: nat)
    requires Extends(p, q) && |p.sampleType| == |q.sampleType|
    requires SamplesOk(p.samples, |p.sampleType|, |p.locations|, p.stringTable)
    ensures SumBy(SampleWeight(q, stack, c), p.samples) == Weight(p, stack, c)
  {
    forall i | 0 <= i < |p.samples|
      ensures SampleWeight(q, stack, c)(p.samples[i]) == SampleWeight(p, stack, c)(p.samples[i])
    {
      assert SampleOk(p.samples[i], |p.sampleType|, |p.locations|, p.stringTable);
      ExtendedStack(p, q, p.samples[i].locationId);
    }
    SumByEqual(SampleWeight(q, stack, c), SampleWeight(p, stack, c), p.samples);
  }

  lemma {:induction false} MovedWeight(v: Profile, q: Profile, strIdx: seq<nat>, fnIdx: seq<nat>, locIdx: seq<nat>,
                    stack: Stack, c: nat)
    requires Moved(v, q, strIdx, fnIdx, locIdx) && |v.sampleType| == |q.sampleType|
    requires SamplesOk(q.samples, |q.sampleType|, |q.locations|, q.stringTable)
    ensures SumBy(SampleWeight(v, stack, c), MapSeq(MoveSample(strIdx, locIdx), q.samples)) == Weight(q, stack, c)
  {
    forall i | 0 <= i < |q.samples|
      ensures SampleWeight(v, stack, c)(MoveSample(strIdx, locIdx)(q.samples[i])) == SampleWeight(q, stack, c)(q.samples[i])
    {
      assert SampleOk(q.samples[i], |q.sampleType|, |q.locations|, q.stringTable);
      MovedStack(v, q, strIdx, fnIdx, locIdx, q.samples[i].locationId);
    }
    SumByMapped(SampleWeight(v, stack, c), MoveSample(strIdx, locIdx), SampleWeight(q, stack, c), q.samples);
  }

  lemma {:induction false} TablesAddWeight(m: Merger, q: Profile, strIdx: seq<nat>, keys: Keys, stack: Stack, c: nat)
    requires TablesGood(m, |q.sampleType|) && WellFormed(q)
    requires RefsInto(strIdx, q.stringTable, m.strings.values)
    requires forall i :: 0 <= i < |q.stringTable| ==> StringAt(m.strings.values, Ref(strIdx, i)) == q.stringTable[i]
    requires CleanTables(m, q, strIdx, keys)
    ensures var m' := MergeTables(m, q, strIdx, keys);
            Weight(TablesOf(m', q.sampleType), stack, c)
            == Weight(TablesOf(m, q.sampleType), stack, c) + Weight(q, stack, c)
  {
    var m' := MergeTables(m, q, strIdx, keys);
    var v, u := TablesOf(m', q.sampleType), TablesOf(m, q.sampleType);
    var fnIdx, locIdx := TablesMoved(m, q, strIdx, keys);
    AddedWeight(v, stack, c, m.samples, MapSeq(MoveSample(strIdx, locIdx), q.samples), keys);
    ExtendedWeight(u, v, stack, c);
    MovedWeight(v, q, strIdx, fnIdx, locIdx, stack, c);
    MergeTablesGood(m, q, strIdx, keys, |q.sampleType|);
  }

  /** The table part of a merge: the old tables are extended, and the input's read the same. */
  lemma {:induction false} TablesMoved(m: Merger, q: Profile, strIdx: seq<nat>, keys: Keys)
    returns (fnIdx: seq<nat>, locIdx: seq<nat>)
    requires TablesGood(m, |q.sampleType|) && WellFormed(q)
    requires RefsInto(strIdx, q.stringTable, m.strings.values)
    requires forall i :: 0 <= i < |q.stringTable| ==> StringAt(m.strings.values, Ref(strIdx, i)) == q.stringTable[i]
    requires CleanTables(m, q, strIdx, keys)
    ensures var m' := MergeTables(m, q, strIdx, keys);
            && Moved(TablesOf(m', q.sampleType), q, strIdx, fnIdx, locIdx)
            && Extends(TablesOf(m, q.sampleType), TablesOf(m', q.sampleType))
            && m'.samples == AddSamples(m.samples, MapSeq(MoveSample(strIdx, locIdx), q.samples), SamplePolicy(keys))
            && SampleHitsAgree(m.samples, MapSeq(MoveSample(strIdx, locIdx), q.samples), SamplePolicy(keys), SameStack())
  {
    var m' := MergeTables(m, q, strIdx, keys);
    MergeTablesGood(m, q, strIdx, keys, |q.sampleType|);
    fnIdx := InternAll(m.functions, MapSeq(MoveFunction(strIdx), q.functions), FunctionPolicy(keys)).1;
    var ms := MapSeq(MoveMapping(strIdx), q.mappings);
    var mapIdx := InternAll(m.mappings, ms, MappingPolicy(keys)).1;
    locIdx := InternAll(m.locations, MapSeq(MoveLocation(fnIdx, mapIdx), q.locations), LocationPolicy(keys)).1;
    FunctionsMoved(m.functions, q.functions, strIdx, keys, m'.functions, fnIdx);
    InternAllGrows(m.mappings, ms, MappingPolicy(keys));
    LocationsMoved(m.locations, q.locations, fnIdx, mapIdx, keys, m'.locations, locIdx);
  }

  /** A clean successful merge adds, for every call stack, the weight the raw input gives it. */
  lemma {:induction false} MergeAddsWeight(m: Merger, p: Profile, keys: Keys, stack: Stack, c: nat)
    requires Good(m) && Merge(m, p, keys).1 == Merged && Clean(m, p, keys)
    ensures Weight(View(Merge(m, p, keys).0), stack, c) == Weight(View(m), stack, c) + Weight(p, stack, c)
  {
    var q := Sanitized(p);
    var (m2, strIdx) := Accepted(m, p, keys);
    AcceptedGood(m, p, keys);
    StringsMoved(m.strings, q.stringTable, keys);
    TablesAddWeight(m2, q, strIdx, keys, stack, c);
    SanitizedKeepsWeight(p, stack, c);
    var m3 := MergeTables(m2, q, strIdx, keys);
    WeightByTables(View(m3), TablesOf(m3, q.sampleType), stack, c);
    var u := TablesOf(m2, q.sampleType);
    if m.header.Some? {
      assert Extends(View(m), u);
      ExtendedWeight(View(m), u, stack, c);
    }
  }

  /** A merge that does not succeed leaves every weight as it was. */
  lemma {:induction false} FailedMergeKeepsWeight(m: Merger, p: Profile, keys: Keys, stack: Stack, c: nat)
    requires Good(m) && Merge(m, p, keys).1 != Merged
    ensures Weight(View(Merge(m, p, keys).0), stack, c) == Weight(View(m), stack, c)
  {
    FailedMergeKeepsState(m, p, keys);
    MergeKeepsGood(m, p, keys);
    var m' := Merge(m, p, keys).0;
    if m.header.Some? && !Skips(p) {
      SanitizedWellFormed(p);
      InternAllGrows(m.strings, Sanitized(p).stringTable, StringPolicy(keys));
      assert Extends(View(m), View(m'));
      ExtendedWeight(View(m), View(m'), stack, c);
    }
  }

  // ----- whole runs

  /** The weight the inputs that a run merged give to a stack. */
  ghost function MergedWeight(ps: seq<Profile>, keys: Keys, stack: Stack, c: nat): int {
    if ps == [] then 0
    else
      var n := |ps| - 1;
      MergedWeight(ps[..n], keys, stack, c) +
      if Merge(Run(ps[..n], keys), ps[n], keys).1 == Merged then Weight(ps[n], stack, c) else 0
  }

  /** Merging preserves meaning, over every run without confusing hits: the profile returned
      gives each call stack the sum of the weights given to it by the profiles merged. */
  lemma {:induction false} RunKeepsMeaning(ps: seq<Profile>, keys: Keys, stack: Stack, c: nat)
    requires CleanRun(ps, keys)
    ensures Weight(ProfileOf(Run(ps, keys)), stack, c) == MergedWeight(ps, keys, stack, c)
  {
    if ps != [] {
      var n := |ps| - 1;
      RunKeepsMeaning(ps[..n], keys, stack, c);
      RunGood(ps[..n], keys);
      ResultIntegrity(ps[..n], keys);
      if Merge(Run(ps[..n], keys), ps[n], keys).1 == Merged {
        MergeAddsWeight(Run(ps[..n], keys), ps[n], keys, stack, c);
      } else {
        FailedMergeKeepsWeight(Run(ps[..n], keys), ps[n], keys, stack, c);
      }
    }
    ResultIntegrity(ps, keys);
  }

  ghost predicate AllMerged(ps: seq<Profile>, keys: Keys) {
    ps == [] || (AllMerged(ps[..|ps| - 1], keys) &&
                 Merge(Run(ps[..|ps| - 1], keys), ps[|ps| - 1], keys).1 == Merged)
  }

  ghost function WeightIn(stack: Stack, c: nat): Profile -> int {
    (p: Profile) => Weight(p, stack, c)
  }

  lemma {:induction false} AllMergedWeight(ps: seq<Profile>, keys: Keys, stack: Stack, c: nat)
    requires AllMerged(ps, keys)
    ensures MergedWeight(ps, keys, stack, c) == SumBy(WeightIn(stack, c), ps)
  {
    if ps != [] {
      AllMergedWeight(ps[..|ps| - 1], keys, stack, c);
    }
  }

  /** The order in which profiles are merged does not change the meaning of the result. */
  lemma {:induction false} OrderIrrelevant(ps: seq<Profile>, qs: seq<Profile>, keys: Keys, stack: Stack, c: nat)
    requires multiset(ps) == multiset(qs)
    requires CleanRun(ps, keys) && AllMerged(ps, keys) && CleanRun(qs, keys) && AllMerged(qs, keys)
    ensures Weight(ProfileOf(Run(ps, keys)), stack, c) == Weight(ProfileOf(Run(qs, keys)), stack, c)
  {
    RunKeepsMeaning(ps, keys, stack, c);
    RunKeepsMeaning(qs, keys, stack, c);
    AllMergedWeight(ps, keys, stack, c);
    AllMergedWeight(qs, keys, stack, c);
    SumByPermutation(WeightIn(stack, c), ps, qs);
  }
}
